/** The accept/reject examples pinned by the package's validator tests, derived
    from the general lemmas about the social URL shape. Each example states
    `Shape(.., FoldAll(value))`, which by the contract of `SocialValidators.Call`
    is exactly "the validator returns" for `value`. */
module SocialExamples {
  import opened Text
  import opened Regex
  import opened Packages
  import opened SocialValidators

  /** The fixed parts of every pattern are written in lower case. */
  lemma FoldedLead(pkg: Package, p: Platform, secure: bool, www: bool)
    ensures Folded(Head(pkg, p, secure, www)) && Folded(Lead(pkg, p, secure, www))
  {
    var scheme, sub := Scheme(secure), if www then "www." else "";
    FoldedLatin(scheme);
    FoldedLatin(sub);
    FoldedHost(pkg, p);
    FoldedPrefix(p);
    FoldedAppend(scheme, sub);
    FoldedAppend(scheme + sub, Host(pkg, p));
    FoldedAppend(Head(pkg, p, secure, www), PathPrefix(p));
  }

  lemma FoldedPrefix(p: Platform)
    ensures Folded(PathPrefix(p))
  {
    FoldedLatin(PathPrefix(p));
  }

  lemma FoldedHost(pkg: Package, p: Platform)
    ensures Folded(Host(pkg, p))
  {
    match p
    case TikTok => FoldedLatin("tiktok.com");
    case Snapchat => FoldedLatin("snapchat.com");
    case Instagram => FoldedLatin("instagram.com");
    case Facebook => FoldedLatin("facebook.com");
    case Telegram => FoldedLatin("t.me");
    case LinkedIn => FoldedLatin("linkedin.com");
    case X => FoldedLatin("twitter.com"); FoldedLatin("x.com");
    case Skype => FoldedLatin("skype.com");
  }

  /** A value that is the text up to the handle, a handle, and what `/?$` lets
      through after it. */
  lemma AcceptedAfter(pkg: Package, p: Platform, secure: bool, www: bool, lead: string, h: string,
                      slash: bool, newline: bool)
    requires www ==> AllowsWww(p)
    requires lead == Lead(pkg, p, secure, www) && IsHandle(p, h)
    ensures Shape(pkg, p, FoldAll(lead + Rest(h, slash, newline)))
  {
    var r := Rest(h, slash, newline);
    FoldedLead(pkg, p, secure, www);
    FoldedHandle(p, h);
    assert Folded(After(slash, newline));
    FoldedAppend(h, After(slash, newline));
    FoldedAppend(lead, r);
    FoldAllFolded(lead + r);
    assert lead + r == Assemble(pkg, p, secure, www, h, slash, newline);
  }

  /** Handle characters are their own case-folded form. */
  lemma FoldedHandle(p: Platform, h: string)
    requires IsHandle(p, h)
    ensures Folded(h)
  {
  }

  /** A run of handle characters followed by a character that is neither a handle
      character nor the start of `/?$`. */
  lemma TailRejected(p: Platform, h: string, after: string)
    requires forall i :: 0 <= i < |h| ==> HandleChar(p, h[i])
    requires |after| > 0 && !HandleChar(p, after[0]) && after != "\n"
    requires after[0] == '/' ==> !AtDollar(after[1..])
    ensures !MatchTail(p, h + after)
  {
    HandleLengthOf(p, h, after);
    var r := h + after;
    assert r[|h|..] == after;
    if after[0] == '/' {
      assert r[|h| + 1..] == after[1..];
    }
  }

  /** A value that is the text up to the handle followed by a tail the tail
      matcher refuses. */
  lemma RejectedAfter(pkg: Package, p: Platform, secure: bool, www: bool, lead: string, h: string, after: string)
    requires www ==> AllowsWww(p)
    requires lead == Lead(pkg, p, secure, www) && Folded(h + after)
    requires forall i :: 0 <= i < |h| ==> HandleChar(p, h[i])
    requires |after| > 0 && !HandleChar(p, after[0]) && after != "\n"
    requires after[0] == '/' ==> !AtDollar(after[1..])
    ensures !Shape(pkg, p, FoldAll(lead + (h + after)))
  {
    FoldedLead(pkg, p, secure, www);
    FoldedAppend(lead, h + after);
    FoldAllFolded(lead + (h + after));
    TailRejected(p, h, after);
    ShapeAfterLead(pkg, p, secure, www, h + after);
  }

  /** The text up to the handle, with no handle. */
  lemma RejectedEmptyHandle(pkg: Package, p: Platform, secure: bool, www: bool, lead: string)
    requires www ==> AllowsWww(p)
    requires lead == Lead(pkg, p, secure, www)
    ensures !Shape(pkg, p, FoldAll(lead))
  {
    FoldedLead(pkg, p, secure, www);
    FoldAllFolded(lead);
    MissingHandleRejected(pkg, p, secure, www, false);
    assert lead + "" == lead;
  }

  /** A value whose text after the host lacks the path prefix. */
  lemma RejectedPath(pkg: Package, p: Platform, secure: bool, www: bool, head: string, r: string)
    requires head == Head(pkg, p, secure, www) && Folded(r) && !StartsWith(r, PathPrefix(p))
    ensures !Shape(pkg, p, FoldAll(head + r))
  {
    FoldedLead(pkg, p, secure, www);
    FoldedAppend(head, r);
    FoldAllFolded(head + r);
    WrongPathRejected(pkg, p, secure, www, r);
  }

  /** A value that does not start with `http`. */
  lemma RejectedScheme(pkg: Package, p: Platform, value: string)
    requires Folded(value) && !StartsWith(value, "http")
    ensures !Shape(pkg, p, FoldAll(value))
  {
    FoldAllFolded(value);
    if Shape(pkg, p, value) {
      SchemeRequired(pkg, p, value);
    }
  }

  lemma TikTokValidText()
    ensures "https://www.tiktok.com/@" == Lead(SageQrcode, TikTok, true, true)
    ensures IsHandle(TikTok, "username")
    ensures Rest("username", false, false) == "username"
  {
  }

  /** `https://www.tiktok.com/@username` is a TikTok profile. */
  lemma TikTokValid()
    ensures Shape(SageQrcode, TikTok, FoldAll("https://www.tiktok.com/@" + "username"))
  {
    TikTokValidText();
    AcceptedAfter(SageQrcode, TikTok, true, true, "https://www.tiktok.com/@", "username", false, false);
  }

  lemma SnapchatValidText()
    ensures "https://snapchat.com/add/" == Lead(SageQrcode, Snapchat, true, false)
    ensures IsHandle(Snapchat, "user123")
    ensures Rest("user123", false, false) == "user123"
  {
  }

  /** `https://snapchat.com/add/user123` is a Snapchat profile. */
  lemma SnapchatValid()
    ensures Shape(SageQrcode, Snapchat, FoldAll("https://snapchat.com/add/" + "user123"))
  {
    SnapchatValidText();
    AcceptedAfter(SageQrcode, Snapchat, true, false, "https://snapchat.com/add/", "user123", false, false);
  }

  lemma InstagramValidText()
    ensures "https://instagram.com/" == Lead(SageQrcode, Instagram, true, false)
    ensures IsHandle(Instagram, "validuser")
    ensures Rest("validuser", false, false) == "validuser"
  {
  }

  /** `https://instagram.com/validuser` is an Instagram profile. */
  lemma InstagramValid()
    ensures Shape(SageQrcode, Instagram, FoldAll("https://instagram.com/" + "validuser"))
  {
    InstagramValidText();
    AcceptedAfter(SageQrcode, Instagram, true, false, "https://instagram.com/", "validuser", false, false);
  }

  lemma FacebookValidText()
    ensures "https://www.facebook.com/" == Lead(SageQrcode, Facebook, true, true)
    ensures IsHandle(Facebook, "username")
    ensures Rest("username", false, false) == "username"
  {
  }

  /** `https://www.facebook.com/username` is a Facebook profile. */
  lemma FacebookValid()
    ensures Shape(SageQrcode, Facebook, FoldAll("https://www.facebook.com/" + "username"))
  {
    FacebookValidText();
    AcceptedAfter(SageQrcode, Facebook, true, true, "https://www.facebook.com/", "username", false, false);
  }

  lemma TelegramValidText()
    ensures "https://t.me/" == Lead(SageQrcode, Telegram, true, false)
    ensures IsHandle(Telegram, "user123")
    ensures Rest("user123", false, false) == "user123"
  {
  }

  /** `https://t.me/user123` is a Telegram profile. */
  lemma TelegramValid()
    ensures Shape(SageQrcode, Telegram, FoldAll("https://t.me/" + "user123"))
  {
    TelegramValidText();
    AcceptedAfter(SageQrcode, Telegram, true, false, "https://t.me/", "user123", false, false);
  }

  lemma LinkedInValidText()
    ensures "https://www.linkedin.com/in/" == Lead(SageQrcode, LinkedIn, true, true)
    ensures IsHandle(LinkedIn, "username")
    ensures Rest("username", false, false) == "username"
  {
  }

  /** `https://www.linkedin.com/in/username` is a LinkedIn profile. */
  lemma LinkedInValid()
    ensures Shape(SageQrcode, LinkedIn, FoldAll("https://www.linkedin.com/in/" + "username"))
  {
    LinkedInValidText();
    AcceptedAfter(SageQrcode, LinkedIn, true, true, "https://www.linkedin.com/in/", "username", false, false);
  }

  lemma SkypeValidText()
    ensures "https://skype.com/" == Lead(SageQrcode, Skype, true, false)
    ensures IsHandle(Skype, "user123")
    ensures Rest("user123", false, false) == "user123"
  {
  }

  /** `https://skype.com/user123` is a Skype profile. */
  lemma SkypeValid()
    ensures Shape(SageQrcode, Skype, FoldAll("https://skype.com/" + "user123"))
  {
    SkypeValidText();
    AcceptedAfter(SageQrcode, Skype, true, false, "https://skype.com/", "user123", false, false);
  }

  lemma TwitterValidText()
    ensures "https://twitter.com/" == Lead(SageQrcode, X, true, false)
    ensures IsHandle(X, "validuser")
    ensures Rest("validuser", false, false) == "validuser"
  {
  }

  /** In `sage_qrcode`, `https://twitter.com/validuser` is an X profile. */
  lemma TwitterValid()
    ensures Shape(SageQrcode, X, FoldAll("https://twitter.com/" + "validuser"))
  {
    TwitterValidText();
    AcceptedAfter(SageQrcode, X, true, false, "https://twitter.com/", "validuser", false, false);
  }

  lemma XComValidText()
    ensures "https://x.com/" == Lead(DjangoSageQrcode, X, true, false)
    ensures IsHandle(X, "validuser")
    ensures Rest("validuser", false, false) == "validuser"
  {
  }

  /** In `django_sage_qrcode`, `https://x.com/validuser` is an X profile. */
  lemma XComValid()
    ensures Shape(DjangoSageQrcode, X, FoldAll("https://x.com/" + "validuser"))
  {
    XComValidText();
    AcceptedAfter(DjangoSageQrcode, X, true, false, "https://x.com/", "validuser", false, false);
  }

  lemma UpperCaseValidText()
    ensures "https://www.tiktok.com/@" == Lead(SageQrcode, TikTok, true, true)
    ensures IsHandle(TikTok, "bob")
    ensures Rest("bob", false, false) == "bob"
  {
  }

  /** Matching ignores case: `HTTPS://WWW.TIKTOK.COM/@BOB` is accepted. */
  lemma UpperCaseValid()
    ensures Shape(SageQrcode, TikTok, FoldAll(Upper("https://www.tiktok.com/@" + "bob")))
  {
    UpperCaseValidText();
    AcceptedAfter(SageQrcode, TikTok, true, true, "https://www.tiktok.com/@", "bob", false, false);
    CaseInsensitive(SageQrcode, TikTok, "https://www.tiktok.com/@" + "bob");
  }

  lemma NewlineValidText()
    ensures "https://t.me/" == Lead(SageQrcode, Telegram, true, false)
    ensures IsHandle(Telegram, "bob")
    ensures Rest("bob", false, true) == "bob\n"
  {
  }

  /** `$` lets one final newline through: `https://t.me/bob\n` is accepted. */
  lemma NewlineValid()
    ensures Shape(SageQrcode, Telegram, FoldAll("https://t.me/" + "bob\n"))
  {
    NewlineValidText();
    AcceptedAfter(SageQrcode, Telegram, true, false, "https://t.me/", "bob", false, true);
  }

  lemma SlashNewlineValidText()
    ensures "http://www.instagram.com/" == Lead(SageQrcode, Instagram, false, true)
    ensures IsHandle(Instagram, "bob")
    ensures Rest("bob", true, true) == "bob/\n"
  {
  }

  /** A trailing `/` and a final newline together: `http://www.instagram.com/bob/\n` is accepted. */
  lemma SlashNewlineValid()
    ensures Shape(SageQrcode, Instagram, FoldAll("http://www.instagram.com/" + "bob/\n"))
  {
    SlashNewlineValidText();
    AcceptedAfter(SageQrcode, Instagram, false, true, "http://www.instagram.com/", "bob", true, true);
  }

  lemma ExtraSegmentInvalidText()
    ensures "https://www.tiktok.com/@" == Lead(SageQrcode, TikTok, true, true)
    ensures Folded("user123" + "/extra")
    ensures forall i :: 0 <= i < |"user123"| ==> HandleChar(TikTok, "user123"[i])
    ensures !HandleChar(TikTok, "/extra"[0]) && "/extra" != "\n"
    ensures "/extra"[0] == '/' ==> !AtDollar("/extra"[1..])
  {
  }

  /** An extra path segment: `https://www.tiktok.com/@user123/extra` is rejected. */
  lemma ExtraSegmentInvalid()
    ensures !Shape(SageQrcode, TikTok, FoldAll("https://www.tiktok.com/@" + ("user123" + "/extra")))
  {
    ExtraSegmentInvalidText();
    RejectedAfter(SageQrcode, TikTok, true, true, "https://www.tiktok.com/@", "user123", "/extra");
  }


  lemma TelegramNoHandleText()
    ensures "https://t.me/" == Lead(SageQrcode, Telegram, true, false)
  {
  }

  /** No handle: `https://t.me/` is rejected. */
  lemma TelegramNoHandle()
    ensures !Shape(SageQrcode, Telegram, FoldAll("https://t.me/"))
  {
    TelegramNoHandleText();
    RejectedEmptyHandle(SageQrcode, Telegram, true, false, "https://t.me/");
  }


  lemma SkypeNoHandleText()
    ensures "https://www.skype.com/" == Lead(SageQrcode, Skype, true, true)
  {
  }

  /** No handle: `https://www.skype.com/` is rejected. */
  lemma SkypeNoHandle()
    ensures !Shape(SageQrcode, Skype, FoldAll("https://www.skype.com/"))
  {
    SkypeNoHandleText();
    RejectedEmptyHandle(SageQrcode, Skype, true, true, "https://www.skype.com/");
  }


  lemma SpaceInvalidText()
    ensures "https://instagram.com/" == Lead(SageQrcode, Instagram, true, false)
    ensures Folded("invalid" + " user")
    ensures forall i :: 0 <= i < |"invalid"| ==> HandleChar(Instagram, "invalid"[i])
    ensures !HandleChar(Instagram, " user"[0]) && " user" != "\n"
  {
  }

  /** A space in the handle: `https://instagram.com/invalid user` is rejected. */
  lemma SpaceInvalid()
    ensures !Shape(SageQrcode, Instagram, FoldAll("https://instagram.com/" + ("invalid" + " user")))
  {
    SpaceInvalidText();
    RejectedAfter(SageQrcode, Instagram, true, false, "https://instagram.com/", "invalid", " user");
  }


  lemma BangInvalidText()
    ensures "https://t.me/" == Lead(SageQrcode, Telegram, true, false)
    ensures Folded("invaliduser" + "!")
    ensures forall i :: 0 <= i < |"invaliduser"| ==> HandleChar(Telegram, "invaliduser"[i])
    ensures !HandleChar(Telegram, "!"[0]) && "!" != "\n"
  {
  }

  /** A `!` in the handle: `https://t.me/invaliduser!` is rejected. */
  lemma BangInvalid()
    ensures !Shape(SageQrcode, Telegram, FoldAll("https://t.me/" + ("invaliduser" + "!")))
  {
    BangInvalidText();
    RejectedAfter(SageQrcode, Telegram, true, false, "https://t.me/", "invaliduser", "!");
  }


  lemma DotLinkedInInvalidText()
    ensures "https://linkedin.com/in/" == Lead(DjangoSageQrcode, LinkedIn, true, false)
    ensures Folded("first" + ".last")
    ensures forall i :: 0 <= i < |"first"| ==> HandleChar(LinkedIn, "first"[i])
    ensures !HandleChar(LinkedIn, ".last"[0]) && ".last" != "\n"
  {
  }

  /** LinkedIn handles have no `.`: `https://linkedin.com/in/first.last` is rejected. */
  lemma DotLinkedInInvalid()
    ensures !Shape(DjangoSageQrcode, LinkedIn, FoldAll("https://linkedin.com/in/" + ("first" + ".last")))
  {
    DotLinkedInInvalidText();
    RejectedAfter(DjangoSageQrcode, LinkedIn, true, false, "https://linkedin.com/in/", "first", ".last");
  }


  lemma TikTokNoAtText()
    ensures "https://www.tiktok.com" == Head(SageQrcode, TikTok, true, true)
    ensures Folded("/user123")
    ensures !StartsWith("/user123", PathPrefix(TikTok))
  {
    assert "/user123"[1] != PathPrefix(TikTok)[1];
  }

  /** A TikTok URL without `@`: `https://www.tiktok.com/user123` is rejected. */
  lemma TikTokNoAt()
    ensures !Shape(SageQrcode, TikTok, FoldAll("https://www.tiktok.com" + "/user123"))
  {
    TikTokNoAtText();
    RejectedPath(SageQrcode, TikTok, true, true, "https://www.tiktok.com", "/user123");
  }

  lemma SnapchatNoAddText()
    ensures "https://snapchat.com" == Head(SageQrcode, Snapchat, true, false)
    ensures Folded("/invaliduser")
    ensures !StartsWith("/invaliduser", PathPrefix(Snapchat))
  {
    assert "/invaliduser"[1] != PathPrefix(Snapchat)[1];
  }

  /** A Snapchat URL without `add/`: `https://snapchat.com/invaliduser` is rejected. */
  lemma SnapchatNoAdd()
    ensures !Shape(SageQrcode, Snapchat, FoldAll("https://snapchat.com" + "/invaliduser"))
  {
    SnapchatNoAddText();
    RejectedPath(SageQrcode, Snapchat, true, false, "https://snapchat.com", "/invaliduser");
  }

  lemma LinkedInNoInText()
    ensures "https://www.linkedin.com" == Head(SageQrcode, LinkedIn, true, true)
    ensures Folded("/")
    ensures !StartsWith("/", PathPrefix(LinkedIn))
  {
    assert |"/"| < |PathPrefix(LinkedIn)|;
    assert Head(SageQrcode, LinkedIn, true, true) == "https://www.linkedin.com";
  }

  /** A LinkedIn URL without `in/`: `https://www.linkedin.com/` is rejected. */
  lemma LinkedInNoIn()
    ensures !Shape(SageQrcode, LinkedIn, FoldAll("https://www.linkedin.com" + "/"))
  {
    LinkedInNoInText();
    RejectedPath(SageQrcode, LinkedIn, true, true, "https://www.linkedin.com", "/");
  }

  lemma InstagramNoPathText()
    ensures "https://instagram.com" == Head(SageQrcode, Instagram, true, false)
    ensures Folded("")
    ensures !StartsWith("", PathPrefix(Instagram))
  {
    assert |""| < |PathPrefix(Instagram)|;
  }

  /** A bare host: `https://instagram.com` is rejected. */
  lemma InstagramNoPath()
    ensures !Shape(SageQrcode, Instagram, FoldAll("https://instagram.com" + ""))
  {
    InstagramNoPathText();
    RejectedPath(SageQrcode, Instagram, true, false, "https://instagram.com", "");
  }

  /** A value that is not a URL: `invalidurl` is rejected. */
  lemma BareWordInvalid()
    ensures !Shape(SageQrcode, Facebook, FoldAll("invalidurl"))
  {
    assert "invalidurl"[0] != "http"[0];
    RejectedScheme(SageQrcode, Facebook, "invalidurl");
  }

  /** The empty string is rejected. */
  lemma EmptyInvalid()
    ensures !Shape(SageQrcode, Skype, FoldAll(""))
  {
    RejectedScheme(SageQrcode, Skype, "");
  }

  /** In `django_sage_qrcode` the X validator rejects `twitter.com`. */
  lemma TwitterInvalidInLegacy()
    ensures !Shape(DjangoSageQrcode, X, FoldAll("https://" + "twitter.com/validuser"))
  {
    assert Folded("twitter.com/validuser");
    FoldedAppend("https://", "twitter.com/validuser");
    FoldAllFolded("https://" + "twitter.com/validuser");
    assert "twitter.com/validuser"[0] != Host(DjangoSageQrcode, X)[0];
    WrongHostRejected(DjangoSageQrcode, X, true, "twitter.com/validuser");
  }

  /** In `sage_qrcode` the X validator rejects `x.com`. */
  lemma XComInvalidInSage()
    ensures !Shape(SageQrcode, X, FoldAll("https://" + "x.com/validuser"))
  {
    assert Folded("x.com/validuser");
    FoldedAppend("https://", "x.com/validuser");
    FoldAllFolded("https://" + "x.com/validuser");
    assert "x.com/validuser"[0] != Host(SageQrcode, X)[0];
    WrongHostRejected(SageQrcode, X, true, "x.com/validuser");
  }
}
