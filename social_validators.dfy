/** The eight social-profile URL validators (`helpers/validators/socials.py` of both
    packages). Each class holds one pattern of the form
    `^https?://(?:www\.)?HOST PATH HANDLE+/?$`, compiled with `re.IGNORECASE` and
    applied with `re.match`. */
module SocialValidators {
  import opened Python
  import opened Text
  import opened Regex
  import opened Validation
  import opened Packages

  /** One validator class per platform. */
  datatype Platform = TikTok | Snapchat | Instagram | Facebook | Telegram | LinkedIn | X | Skype

  /** A validator instance: its class and its `message`/`code` attributes. Python's
      `__eq__` compares exactly these (same class, same message, same code), which is
      Dafny's equality on this datatype. */
  datatype SocialValidator = SocialValidator(platform: Platform, config: Config)

  function DefaultMessage(p: Platform): string {
    match p
    case TikTok => "Enter a valid TikTok profile URL."
    case Snapchat => "Enter a valid Snapchat profile URL."
    case Instagram => "Enter a valid Instagram profile URL."
    case Facebook => "Enter a valid Facebook profile URL."
    case Telegram => "Enter a valid Telegram profile URL."
    case LinkedIn => "Enter a valid LinkedIn profile URL."
    case X => "Enter a valid X profile URL."
    case Skype => "Enter a valid Skype profile URL."
  }

  /** `Cls(message=None, code=None)`. */
  function New(p: Platform, message: Option<string>, code: Option<string>): (v: SocialValidator)
    ensures v.platform == p
    ensures v.config.message == (if message.Some? then message.value else DefaultMessage(p))
    ensures v.config.code == (if code.Some? then code.value else "invalid")
  {
    SocialValidator(p, Configure(Config(DefaultMessage(p), "invalid"), message, code))
  }

  /** The host in the pattern (lower case; matching ignores case). The X validator
      matches `twitter.com` in `sage_qrcode` and `x.com` in `django_sage_qrcode`. */
  function Host(pkg: Package, p: Platform): string {
    match p
    case TikTok => "tiktok.com"
    case Snapchat => "snapchat.com"
    case Instagram => "instagram.com"
    case Facebook => "facebook.com"
    case Telegram => "t.me"
    case LinkedIn => "linkedin.com"
    case X => if pkg == SageQrcode then "twitter.com" else "x.com"
    case Skype => "skype.com"
  }

  /** The fixed path between the host and the handle. */
  function PathPrefix(p: Platform): string {
    match p
    case TikTok => "/@"
    case Snapchat => "/add/"
    case LinkedIn => "/in/"
    case _ => "/"
  }

  /** Only the Telegram pattern has no optional `www.`. */
  predicate AllowsWww(p: Platform) {
    p != Telegram
  }

  /** Membership of a case-folded character in the handle class: `[A-Za-z0-9_]` for
      Telegram and X, `[A-Za-z0-9_-]` for LinkedIn, `[A-Za-z0-9_.-]` for the others. */
  predicate HandleChar(p: Platform, c: char) {
    || 'a' <= c <= 'z'
    || '0' <= c <= '9'
    || c == '_'
    || (c == '-' && p != Telegram && p != X)
    || (c == '.' && p != Telegram && p != X && p != LinkedIn)
  }

  predicate IsHandle(p: Platform, h: string) {
    |h| > 0 && forall i :: 0 <= i < |h| ==> HandleChar(p, h[i])
  }

  // ---------------------------------------------------------------------------
  // The URL shape the pattern describes, on case-folded text.

  function Scheme(secure: bool): string {
    if secure then "https://" else "http://"
  }

  /** Scheme, optional `www.` and host. */
  function Head(pkg: Package, p: Platform, secure: bool, www: bool): string {
    Scheme(secure) + (if www then "www." else "") + Host(pkg, p)
  }

  /** Everything up to the handle: scheme, optional `www.`, host and path prefix. */
  function Lead(pkg: Package, p: Platform, secure: bool, www: bool): string {
    Head(pkg, p, secure, www) + PathPrefix(p)
  }

  /** What may follow the handle: an optional `/`, then the optional final newline
      that `$` lets through. */
  function After(slash: bool, newline: bool): string {
    (if slash then "/" else "") + (if newline then "\n" else "")
  }

  function Rest(h: string, slash: bool, newline: bool): string {
    h + After(slash, newline)
  }

  function Assemble(pkg: Package, p: Platform, secure: bool, www: bool, h: string, slash: bool, newline: bool): string {
    Lead(pkg, p, secure, www) + Rest(h, slash, newline)
  }

  /** The case-folded text `t` is a profile URL of platform `p`. */
  ghost predicate Shape(pkg: Package, p: Platform, t: string) {
    exists secure: bool, www: bool, h: string, slash: bool, newline: bool ::
      (www ==> AllowsWww(p)) && IsHandle(p, h) && t == Assemble(pkg, p, secure, www, h, slash, newline)
  }

  // ---------------------------------------------------------------------------
  // The matcher: `re.match` of the pattern, trying each way the optional parts can
  // be taken, then the greedy handle run, `/?` and `$`.

  /** Length of the longest run of handle characters at the front of `s`. */
  function HandleLength(p: Platform, s: string): (n: nat)
    ensures n <= |s|
    ensures forall i :: 0 <= i < n ==> HandleChar(p, s[i])
    ensures n < |s| ==> !HandleChar(p, s[n])
    decreases |s|
  {
    if |s| == 0 || !HandleChar(p, s[0]) then 0 else 1 + HandleLength(p, s[1..])
  }

  /** `[class]+/?$` against the text after the path prefix. */
  predicate MatchTail(p: Platform, r: string) {
    var n := HandleLength(p, r);
    n > 0 && (AtDollar(r[n..]) || (n < |r| && r[n] == '/' && AtDollar(r[n + 1..])))
  }

  predicate MatchFrom(pkg: Package, p: Platform, t: string, secure: bool, www: bool) {
    var lead := Lead(pkg, p, secure, www);
    StartsWith(t, lead) && MatchTail(p, t[|lead|..])
  }

  /** `regex.match(value)` is not None, for the case-folded `t` of `value`. */
  predicate Matches(pkg: Package, p: Platform, t: string) {
    || MatchFrom(pkg, p, t, true, false)
    || MatchFrom(pkg, p, t, false, false)
    || (AllowsWww(p) && (MatchFrom(pkg, p, t, true, true) || MatchFrom(pkg, p, t, false, true)))
  }

  /** A run of handle characters followed by a non-handle character (or nothing). */
  lemma {:induction false} HandleLengthOf(p: Platform, h: string, after: string)
    requires forall i :: 0 <= i < |h| ==> HandleChar(p, h[i])
    requires |after| == 0 || !HandleChar(p, after[0])
    ensures HandleLength(p, h + after) == |h|
    decreases |h|
  {
    if |h| > 0 {
      assert (h + after)[1..] == h[1..] + after;
      HandleLengthOf(p, h[1..], after);
    } else {
      assert h + after == after;
    }
  }

  /** After a handle that the next character does not extend, the tail matcher
      only looks at what follows: `$`, or `/` then `$`. */
  lemma MatchTailAt(p: Platform, h: string, rest: string)
    requires IsHandle(p, h)
    requires |rest| == 0 || !HandleChar(p, rest[0])
    ensures MatchTail(p, h + rest) <==> AtDollar(rest) || (|rest| > 0 && rest[0] == '/' && AtDollar(rest[1..]))
  {
    var r := h + rest;
    HandleLengthOf(p, h, rest);
    assert r[|h|..] == rest;
    if |rest| > 0 {
      assert r[|h|] == rest[0];
      assert r[|h| + 1..] == rest[1..];
    }
  }

  /** Whatever the tail matcher accepts is a handle followed by `After(..)`. */
  lemma TailMatchSound(p: Platform, r: string) returns (h: string, slash: bool, newline: bool)
    requires MatchTail(p, r)
    ensures IsHandle(p, h) && r == Rest(h, slash, newline)
  {
    var n := HandleLength(p, r);
    h := r[..n];
    var tail := r[n..];
    assert r == h + tail;
    if AtDollar(tail) {
      slash, newline := false, tail == "\n";
    } else {
      slash, newline := true, r[n + 1..] == "\n";
      assert tail == "/" + r[n + 1..];
    }
    assert tail == After(slash, newline);
  }

  /** The tail matcher accepts every handle followed by `After(..)`. */
  lemma TailMatchComplete(p: Platform, h: string, slash: bool, newline: bool)
    requires IsHandle(p, h)
    ensures MatchTail(p, Rest(h, slash, newline))
  {
    var after := After(slash, newline);
    MatchTailAt(p, h, after);
    if slash {
      assert after[1..] == (if newline then "\n" else "");
    }
  }

  /** A successful match with one fixed choice of scheme and `www.` is an assembled URL. */
  lemma MatchFromSound(pkg: Package, p: Platform, t: string, secure: bool, www: bool)
    returns (h: string, slash: bool, newline: bool)
    requires MatchFrom(pkg, p, t, secure, www)
    ensures IsHandle(p, h) && t == Assemble(pkg, p, secure, www, h, slash, newline)
  {
    var lead := Lead(pkg, p, secure, www);
    var r := t[|lead|..];
    assert t == lead + r;
    h, slash, newline := TailMatchSound(p, r);
  }

  /** Every assembled URL is matched with its own choice of scheme and `www.`. */
  lemma MatchFromComplete(pkg: Package, p: Platform, secure: bool, www: bool, h: string, slash: bool, newline: bool)
    requires IsHandle(p, h)
    ensures MatchFrom(pkg, p, Assemble(pkg, p, secure, www, h, slash, newline), secure, www)
  {
    var lead := Lead(pkg, p, secure, www);
    var r := Rest(h, slash, newline);
    var t := lead + r;
    assert t[..|lead|] == lead;
    assert t[|lead|..] == r;
    TailMatchComplete(p, h, slash, newline);
  }

  /** The parts of an accepted URL. */
  lemma ShapeWitness(pkg: Package, p: Platform, t: string)
    returns (secure: bool, www: bool, h: string, slash: bool, newline: bool)
    requires Shape(pkg, p, t)
    ensures (www ==> AllowsWww(p)) && IsHandle(p, h) && t == Assemble(pkg, p, secure, www, h, slash, newline)
  {
    secure, www, h, slash, newline :|
      (www ==> AllowsWww(p)) && IsHandle(p, h) && t == Assemble(pkg, p, secure, www, h, slash, newline);
  }

  /** The matcher accepts exactly the URL shape. */
  lemma MatchesIffShape(pkg: Package, p: Platform, t: string)
    ensures Matches(pkg, p, t) <==> Shape(pkg, p, t)
  {
    if Shape(pkg, p, t) {
      var secure, www, h, slash, newline := ShapeWitness(pkg, p, t);
      MatchFromComplete(pkg, p, secure, www, h, slash, newline);
    }
    if Matches(pkg, p, t) {
      MatchedShape(pkg, p, t);
    }
  }

  /** Whatever the matcher accepts has the URL shape. */
  lemma MatchedShape(pkg: Package, p: Platform, t: string)
    requires Matches(pkg, p, t)
    ensures Shape(pkg, p, t)
  {
    var secure := MatchFrom(pkg, p, t, true, false) || (AllowsWww(p) && MatchFrom(pkg, p, t, true, true));
    var www := !MatchFrom(pkg, p, t, secure, false);
    assert www ==> AllowsWww(p);
    var h, slash, newline := MatchFromSound(pkg, p, t, secure, www);
  }

  /** The text up to the host fixes the choice of scheme and of `www.`: no host
      begins with `w`, and `https://` and `http://` differ at their fifth character. */
  lemma HeadDetermined(pkg: Package, p: Platform, t: string, s1: bool, w1: bool, s2: bool, w2: bool)
    requires StartsWith(t, Head(pkg, p, s1, w1)) && StartsWith(t, Head(pkg, p, s2, w2))
    ensures s1 == s2 && w1 == w2
  {
    HostStart(pkg, p);
    HeadsAgree(Host(pkg, p), t, s1, w1, s2, w2);
  }

  /** Every host is non-empty and none begins with `w`. */
  lemma HostStart(pkg: Package, p: Platform)
    ensures |Host(pkg, p)| > 0 && Host(pkg, p)[0] != 'w'
  {
  }

  /** For a host not beginning with `w`, a text starts with at most one choice of
      scheme and `www.` before it. */
  lemma HeadsAgree(host: string, t: string, s1: bool, w1: bool, s2: bool, w2: bool)
    requires |host| > 0 && host[0] != 'w'
    requires StartsWith(t, Scheme(s1) + (if w1 then "www." else "") + host)
    requires StartsWith(t, Scheme(s2) + (if w2 then "www." else "") + host)
    ensures s1 == s2 && w1 == w2
  {
    var l1, l2 := Scheme(s1) + (if w1 then "www." else "") + host, Scheme(s2) + (if w2 then "www." else "") + host;
    assert t[4] == l1[4] == Scheme(s1)[4];
    assert t[4] == l2[4] == Scheme(s2)[4];
    var k := |Scheme(s1)|;
    assert t[k] == l1[k] == (if w1 then 'w' else host[0]);
    assert t[k] == l2[k] == (if w2 then 'w' else host[0]);
  }

  lemma LeadDetermined(pkg: Package, p: Platform, t: string, s1: bool, w1: bool, s2: bool, w2: bool)
    requires StartsWith(t, Lead(pkg, p, s1, w1)) && StartsWith(t, Lead(pkg, p, s2, w2))
    ensures s1 == s2 && w1 == w2
  {
    var h1, h2 := Head(pkg, p, s1, w1), Head(pkg, p, s2, w2);
    assert t[..|h1|] == Lead(pkg, p, s1, w1)[..|h1|] == h1;
    assert t[..|h2|] == Lead(pkg, p, s2, w2)[..|h2|] == h2;
    HeadDetermined(pkg, p, t, s1, w1, s2, w2);
  }

  /** The handle and what follows it are determined by the URL. */
  lemma RestDetermined(pkg: Package, p: Platform, secure: bool, www: bool, r: string,
                       s2: bool, w2: bool, h: string, slash: bool, newline: bool)
    requires Lead(pkg, p, secure, www) + r == Assemble(pkg, p, s2, w2, h, slash, newline)
    ensures r == Rest(h, slash, newline)
  {
    var lead, lead2 := Lead(pkg, p, secure, www), Lead(pkg, p, s2, w2);
    var t := lead + r;
    assert t[..|lead|] == lead;
    assert t[..|lead2|] == lead2;
    LeadDetermined(pkg, p, t, secure, www, s2, w2);
    assert t[|lead|..] == r;
  }

  /** Once the text before the handle is fixed, the URL is accepted exactly when what
      follows is a handle, an optional `/` and an optional final newline. */
  lemma ShapeAfterLead(pkg: Package, p: Platform, secure: bool, www: bool, r: string)
    requires www ==> AllowsWww(p)
    ensures Shape(pkg, p, Lead(pkg, p, secure, www) + r) <==> MatchTail(p, r)
  {
    var t := Lead(pkg, p, secure, www) + r;
    if MatchTail(p, r) {
      var h, slash, newline := TailMatchSound(p, r);
      assert t == Assemble(pkg, p, secure, www, h, slash, newline);
    }
    if Shape(pkg, p, t) {
      var s2, w2, h, slash, newline := ShapeWitness(pkg, p, t);
      RestDetermined(pkg, p, secure, www, r, s2, w2, h, slash, newline);
      TailMatchComplete(p, h, slash, newline);
    }
  }

  lemma AssembleAtHead(pkg: Package, p: Platform, secure: bool, www: bool, h: string, slash: bool, newline: bool)
    ensures Assemble(pkg, p, secure, www, h, slash, newline)
         == Head(pkg, p, secure, www) + (PathPrefix(p) + Rest(h, slash, newline))
  {
  }

  /** What follows the host in an accepted URL begins with the path prefix. */
  lemma PathAfterHead(pkg: Package, p: Platform, secure: bool, www: bool, r: string,
                      s2: bool, w2: bool, h: string, slash: bool, newline: bool)
    requires Head(pkg, p, secure, www) + r == Assemble(pkg, p, s2, w2, h, slash, newline)
    ensures StartsWith(r, PathPrefix(p))
  {
    var head, head2 := Head(pkg, p, secure, www), Head(pkg, p, s2, w2);
    var t := head + r;
    var r2 := PathPrefix(p) + Rest(h, slash, newline);
    AssembleAtHead(pkg, p, s2, w2, h, slash, newline);
    assert t[..|head|] == head;
    assert t[..|head2|] == head2;
    HeadDetermined(pkg, p, t, secure, www, s2, w2);
    assert r == t[|head|..] == r2;
    assert r2[..|PathPrefix(p)|] == PathPrefix(p);
  }

  /** A URL whose text after the host does not begin with the platform's path
      prefix is rejected (a TikTok URL without `@`, a Snapchat URL without `add/`). */
  lemma WrongPathRejected(pkg: Package, p: Platform, secure: bool, www: bool, r: string)
    requires !StartsWith(r, PathPrefix(p))
    ensures !Shape(pkg, p, Head(pkg, p, secure, www) + r)
  {
    var t := Head(pkg, p, secure, www) + r;
    if Shape(pkg, p, t) {
      var s2, w2, h, slash, newline := ShapeWitness(pkg, p, t);
      PathAfterHead(pkg, p, secure, www, r, s2, w2, h, slash, newline);
    }
  }

  lemma AssembleAtScheme(pkg: Package, p: Platform, secure: bool, www: bool, h: string, slash: bool, newline: bool)
    ensures Assemble(pkg, p, secure, www, h, slash, newline)
         == Scheme(secure) + ((if www then "www." else "") + Host(pkg, p) + (PathPrefix(p) + Rest(h, slash, newline)))
  {
    Regroup(Scheme(secure), if www then "www." else "", Host(pkg, p), PathPrefix(p), Rest(h, slash, newline));
  }

  lemma Regroup(a: string, b: string, c: string, d: string, e: string)
    ensures a + b + c + d + e == a + (b + c + (d + e))
  {
  }

  /** What follows the scheme in an accepted URL begins with `www.` or the host. */
  lemma HostAfterScheme(pkg: Package, p: Platform, secure: bool, r: string,
                        s2: bool, w2: bool, h: string, slash: bool, newline: bool)
    requires Scheme(secure) + r == Assemble(pkg, p, s2, w2, h, slash, newline)
    ensures StartsWith(r, "www.") || StartsWith(r, Host(pkg, p))
  {
    AssembleAtScheme(pkg, p, s2, w2, h, slash, newline);
    AfterScheme(Host(pkg, p), PathPrefix(p) + Rest(h, slash, newline), secure, r, s2, w2);
  }

  lemma AfterScheme(host: string, rest: string, secure: bool, r: string, s2: bool, w2: bool)
    requires Scheme(secure) + r == Scheme(s2) + ((if w2 then "www." else "") + host + rest)
    ensures StartsWith(r, "www.") || StartsWith(r, host)
  {
    var t := Scheme(secure) + r;
    var r2 := (if w2 then "www." else "") + host + rest;
    assert t[4] == Scheme(secure)[4] == Scheme(s2)[4];
    assert r == t[|Scheme(secure)|..] == r2;
    if w2 {
      assert r2[..4] == "www.";
    } else {
      assert r2[..|host|] == host;
    }
  }

  /** A URL whose host is not the platform's (and not `www.` followed by it) is
      rejected; in `django_sage_qrcode` this rejects `twitter.com` for X. */
  lemma WrongHostRejected(pkg: Package, p: Platform, secure: bool, r: string)
    requires !StartsWith(r, "www.") && !StartsWith(r, Host(pkg, p))
    ensures !Shape(pkg, p, Scheme(secure) + r)
  {
    var t := Scheme(secure) + r;
    if Shape(pkg, p, t) {
      var s2, w2, h, slash, newline := ShapeWitness(pkg, p, t);
      HostAfterScheme(pkg, p, secure, r, s2, w2, h, slash, newline);
    }
  }

  /** Every accepted URL starts with `http`. */
  lemma SchemeRequired(pkg: Package, p: Platform, t: string)
    requires Shape(pkg, p, t)
    ensures StartsWith(t, "http")
  {
    var secure, www, h, slash, newline := ShapeWitness(pkg, p, t);
    AssembleAtScheme(pkg, p, secure, www, h, slash, newline);
    StartsWithAppend(Scheme(secure), (if www then "www." else "") + Host(pkg, p) + (PathPrefix(p) + Rest(h, slash, newline)),
                     "http");
  }

  /** A prefix of the first part is a prefix of the whole. */
  lemma StartsWithAppend(a: string, b: string, prefix: string)
    requires StartsWith(a, prefix)
    ensures StartsWith(a + b, prefix)
  {
    assert (a + b)[..|prefix|] == a[..|prefix|];
  }

  // ---------------------------------------------------------------------------
  // The validator call.

  /** `validator(value)`: returns iff the case-folded value has the URL shape of the
      validator's platform; otherwise raises with the configured message and code
      and `params={"value": value}`. */
  function Call(pkg: Package, v: SocialValidator, value: string): (r: Check<string>)
    ensures r.Accepted? <==> Shape(pkg, v.platform, FoldAll(value))
    ensures r.Rejected? ==> r.error == ValidationError(v.config.message, v.config.code, map["value" := value])
  {
    MatchesIffShape(pkg, v.platform, FoldAll(value));
    Guard(v.config, Matches(pkg, v.platform, FoldAll(value)), value)
  }

  /** Matching ignores case: upper-casing the ASCII letters of a value never changes
      whether it is accepted. */
  lemma CaseInsensitive(pkg: Package, p: Platform, value: string)
    ensures Shape(pkg, p, FoldAll(Upper(value))) <==> Shape(pkg, p, FoldAll(value))
  {
    FoldUpper(value);
  }

  lemma AssembleNewline(pkg: Package, p: Platform, secure: bool, www: bool, h: string, slash: bool)
    ensures Assemble(pkg, p, secure, www, h, slash, false) + "\n" == Assemble(pkg, p, secure, www, h, slash, true)
  {
  }

  /** The text after the handle ends in a newline iff the newline is present; the
      character before that newline is `/` or a handle character. */
  lemma RestEnd(p: Platform, h: string, slash: bool, newline: bool)
    requires IsHandle(p, h)
    ensures var r := Rest(h, slash, newline);
      (r[|r| - 1] == '\n' <==> newline) && (newline ==> |r| >= 2 && r[|r| - 2] != '\n')
  {
    var r := Rest(h, slash, newline);
    assert r == h + After(slash, newline);
    assert r[|h| - 1] == h[|h| - 1];
    assert HandleChar(p, h[|h| - 1]);
  }

  /** The last characters of a concatenation are those of its second part. */
  lemma EndOfAppend(a: string, b: string, k: nat)
    requires k < |b|
    ensures (a + b)[|a + b| - 1 - k] == b[|b| - 1 - k]
  {
  }

  lemma TrailingNewlineShape(pkg: Package, p: Platform, t: string)
    requires Shape(pkg, p, t) && t[|t| - 1] != '\n'
    ensures Shape(pkg, p, t + "\n")
  {
    var secure, www, h, slash, newline := ShapeWitness(pkg, p, t);
    RestEnd(p, h, slash, newline);
    EndOfAppend(Lead(pkg, p, secure, www), Rest(h, slash, newline), 0);
    AssembleNewline(pkg, p, secure, www, h, slash);
  }

  /** `$` also matches before one final newline: an accepted URL stays accepted with
      a newline appended. */
  lemma TrailingNewlineAccepted(pkg: Package, p: Platform, value: string)
    requires Shape(pkg, p, FoldAll(value))
    requires |value| > 0 && value[|value| - 1] != '\n'
    ensures Shape(pkg, p, FoldAll(value + "\n"))
  {
    var t := FoldAll(value);
    FoldNewline(value[|value| - 1]);
    TrailingNewlineShape(pkg, p, t);
    FoldAllNewline(value);
  }

  /** `$` lets through one final newline, never two: no accepted URL ends in two
      newlines. */
  lemma NoDoubleNewline(pkg: Package, p: Platform, t: string)
    ensures Shape(pkg, p, t) ==> !(|t| >= 2 && t[|t| - 2] == '\n' && t[|t| - 1] == '\n')
  {
    if Shape(pkg, p, t) {
      var lead, h, slash, newline := ShapeParts(pkg, p, t);
      NoDoubleNewlineAfter(p, lead, h, slash, newline);
    }
  }

  /** An accepted URL is some text followed by a handle and what may follow it. */
  lemma ShapeParts(pkg: Package, p: Platform, t: string) returns (lead: string, h: string, slash: bool, newline: bool)
    requires Shape(pkg, p, t)
    ensures IsHandle(p, h) && t == lead + Rest(h, slash, newline)
  {
    var secure, www;
    secure, www, h, slash, newline := ShapeWitness(pkg, p, t);
    lead := Lead(pkg, p, secure, www);
  }

  lemma NoDoubleNewlineAfter(p: Platform, lead: string, h: string, slash: bool, newline: bool)
    requires IsHandle(p, h)
    ensures var t := lead + Rest(h, slash, newline);
      !(|t| >= 2 && t[|t| - 2] == '\n' && t[|t| - 1] == '\n')
  {
    var r := Rest(h, slash, newline);
    RestEnd(p, h, slash, newline);
    EndOfAppend(lead, r, 0);
    if newline {
      EndOfAppend(lead, r, 1);
    }
  }

  /** An extra path segment after a handle never matches `[class]+/?$`. */
  lemma ExtraSegmentTail(p: Platform, h: string, segment: string)
    requires IsHandle(p, h) && |segment| > 0 && segment != "\n"
    ensures !MatchTail(p, h + "/" + segment)
  {
    var after := "/" + segment;
    assert h + "/" + segment == h + after;
    MatchTailAt(p, h, after);
    assert after[1..] == segment;
  }

  /** An extra path segment after the handle is rejected. */
  lemma ExtraSegmentRejected(pkg: Package, p: Platform, secure: bool, www: bool, h: string, segment: string)
    requires www ==> AllowsWww(p)
    requires IsHandle(p, h) && |segment| > 0 && segment != "\n"
    ensures !Shape(pkg, p, Lead(pkg, p, secure, www) + (h + "/" + segment))
  {
    ShapeAfterLead(pkg, p, secure, www, h + "/" + segment);
    ExtraSegmentTail(p, h, segment);
  }

  /** The URL with the handle left out is rejected. */
  lemma MissingHandleRejected(pkg: Package, p: Platform, secure: bool, www: bool, slash: bool)
    requires www ==> AllowsWww(p)
    ensures !Shape(pkg, p, Lead(pkg, p, secure, www) + (if slash then "/" else ""))
  {
    ShapeAfterLead(pkg, p, secure, www, if slash then "/" else "");
  }

  /** On text that case folding leaves unchanged, the validator accepts exactly the
      URL shape. */
  lemma ShapeOnFolded(pkg: Package, p: Platform, value: string)
    requires Folded(value)
    ensures Shape(pkg, p, FoldAll(value)) <==> Shape(pkg, p, value)
  {
    FoldAllFolded(value);
  }
}
