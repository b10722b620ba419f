/** `SocialMediaQRCode` (`service/social_qrcode.py` of both packages): social
    profile codes with a platform icon, and plain URL codes. */
module SocialService {
  import opened Python
  import opened Text
  import opened Images
  import opened Base
  import opened Packages

  const SocialCaption := "Scan to view social media profile"
  const InvalidLink := "Invalid social media link"
  /** What Python raises when `add_icon_to_image` reads the size of a missing
      image. */
  const NoImage := "'NoneType' object has no attribute 'size'"
  /** What Python raises when the older `create_url` is called without `save`. */
  const MissingSave := "SocialMediaQRCode.create_url() missing 1 required positional argument: 'save'"

  /** The ordered table of `add_social_media_icon`: a domain to look for and the
      icon drawn for it. */
  const IconTable: seq<(string, string)> := [
    ("instagram.com", "icons/instagram.png"),
    ("whatsapp.com", "icons/logo.png"),
    ("t.me", "icons/gram.png"),
    ("facebook.com", "icons/meta.png"),
    ("twitter.com", "icons/witter.png"),
    ("linkedin.com", "icons/linkedin.png"),
    ("snapchat.com", "icons/snapchat.png"),
    ("tiktok.com", "icons/ti.png"),
    ("skype.com", "icons/skype.png")
  ]

  /** Entry `i` of a table is the one chosen for the lower-cased URL: its domain
      occurs and no earlier domain does. */
  predicate ChosenAt(table: seq<(string, string)>, lowered: string, i: int) {
    && 0 <= i < |table|
    && Contains(lowered, table[i].0)
    && forall j :: 0 <= j < i ==> !Contains(lowered, table[j].0)
  }

  /** The icon of the first entry, from `from` on, whose domain occurs. */
  function FirstIcon(table: seq<(string, string)>, lowered: string, from: nat): Option<string>
    decreases |table| - from
  {
    if from >= |table| then None
    else if Contains(lowered, table[from].0) then Some(table[from].1)
    else FirstIcon(table, lowered, from + 1)
  }

  /** The icon `add_social_media_icon` chooses for a URL, if any. */
  function IconFor(url: string): Option<string> {
    FirstIcon(IconTable, Lower(url), 0)
  }

  /** The `for … break/else` search over an ordered table: returns the icon of the
      first domain that is a substring of the lower-cased URL, or nothing when none
      is. */
  method LookUp(table: seq<(string, string)>, lowered: string) returns (icon: Option<string>)
    ensures icon == FirstIcon(table, lowered, 0)
    ensures icon.None? <==> forall i :: 0 <= i < |table| ==> !Contains(lowered, table[i].0)
    ensures icon.Some? ==> exists i :: ChosenAt(table, lowered, i) && icon.value == table[i].1
  {
    var i := 0;
    while i < |table|
      invariant 0 <= i <= |table|
      invariant forall j :: 0 <= j < i ==> !Contains(lowered, table[j].0)
      invariant FirstIcon(table, lowered, 0) == FirstIcon(table, lowered, i)
    {
      var (key, path) := table[i];
      if Contains(lowered, key) {
        assert ChosenAt(table, lowered, i);
        return Some(path);
      }
      i := i + 1;
    }
    return None;
  }

  /** The search of `add_social_media_icon`, on its own table and `url.lower()`. */
  method LookUpIcon(url: string) returns (icon: Option<string>)
    ensures icon == IconFor(url)
    ensures icon.None? <==> forall i :: 0 <= i < |IconTable| ==> !Contains(Lower(url), IconTable[i].0)
    ensures icon.Some? ==> exists i :: ChosenAt(IconTable, Lower(url), i) && icon.value == IconTable[i].1
  {
    icon := LookUp(IconTable, Lower(url));
  }

  /** `add_social_media_icon(url)`: raises `ValueError` when no domain occurs;
      otherwise pastes the icon onto the stored image in place and returns it
      (raising `AttributeError` when there is no stored image). */
  method AddSocialMediaIcon(q: QRCodeBase, url: string) returns (r: Result<Image>)
    modifies q
    ensures q.saved == old(q.saved)
    ensures IconFor(url).None? ==> r == Failure(ValueError(InvalidLink)) && q.qrImage == old(q.qrImage)
    ensures IconFor(url).Some? && old(q.qrImage).None? ==>
              r == Failure(AttributeError(NoImage)) && q.qrImage == old(q.qrImage)
    ensures IconFor(url).Some? && old(q.qrImage).Some? ==>
              r == Success(WithIcon(old(q.qrImage).value, IconFor(url).value)) && q.qrImage == Some(r.value)
  {
    var icon := LookUpIcon(url);
    if icon.None? {
      return Failure(ValueError(InvalidLink));
    }
    if q.qrImage.None? {
      return Failure(AttributeError(NoImage));
    }
    q.qrImage := Some(WithIcon(q.qrImage.value, icon.value));
    return Success(q.qrImage.value);
  }

  /** `create_social_media_url(url, save=False, frame_type=None, color="#000000",
      color2="#FFFFFF", color3="#000000", size=10)`: no custom image is passed,
      so the icon, the optional frame and the caption are always drawn; when the
      URL names no known platform the `ValueError` escapes, leaving the plain
      rendering stored and nothing saved. When the URL does not fit, the
      `DataOverflowError` of generation escapes and nothing changes. */
  method CreateSocialMediaUrl(q: QRCodeBase, url: string, save: bool, frame: Option<string>,
                              color: Option<string>, color2: string, color3: string, size: int,
                              backend: Backend)
    returns (r: Outcome)
    modifies q
    ensures !backend.fits ==>
              r == Fail(DataOverflowError) && q.qrImage == old(q.qrImage) && q.saved == old(q.saved)
    ensures backend.fits ==> var plain := Render(url, size, "h", None, color, color2, color3, backend);
      && (IconFor(url).None? ==>
            r == Fail(ValueError(InvalidLink)) && q.qrImage == Some(plain) && q.saved == old(q.saved))
      && (IconFor(url).Some? ==>
            && r == Pass
            && q.qrImage == Some(Decorate(WithIcon(plain, IconFor(url).value), frame, Some(SocialCaption)))
            && q.saved == old(q.saved) + (if save then [q.qrImage.value] else []))
  {
    var generated := q.GenerateQrCode(url, size, "h", None, color, color2, color3, backend);
    if generated.Failure? {
      return Fail(generated.error);
    }
    if !generated.value {
      var withIcon := AddSocialMediaIcon(q, url);
      if withIcon.Failure? {
        return Fail(withIcon.error);
      }
      q.qrImage := Some(withIcon.value);
      if Truthy(frame) {
        q.qrImage := Some(Framed(q.qrImage.value, frame.value));
      }
      q.qrImage := Some(Captioned(q.qrImage.value, SocialCaption));
    }
    var _ := q.ShowQrCode(save);
    return Pass;
  }

  /** `create_url(playlist_url, save, custom=None, frame_type=None, …)`. The test
      `not self.generate_qr_code` looks at the bound method, which is always true,
      so no caption is ever drawn and the image is shown with `save=False` whatever
      the caller asked. In the older package `save` has no default: a call without
      it raises `TypeError` before anything happens. When the URL does not fit, the
      `DataOverflowError` of generation escapes and nothing changes. */
  method CreateUrl(pkg: Package, q: QRCodeBase, playlistUrl: string, save: Option<bool>,
                   custom: Option<string>, frame: Option<string>, color: Option<string>, size: int,
                   color2: string, color3: string, backend: Backend)
    returns (r: Outcome)
    modifies q
    ensures r.Fail? <==> (pkg == DjangoSageQrcode && save.None?) || !backend.fits
    ensures pkg == DjangoSageQrcode && save.None? ==> r == Fail(TypeError(MissingSave))
    ensures r.Fail? && !(pkg == DjangoSageQrcode && save.None?) ==> r.error == DataOverflowError
    ensures r.Fail? ==> q.qrImage == old(q.qrImage)
    ensures r.Pass? ==> q.qrImage == Some(Decorate(Render(playlistUrl, size, "h", custom, color, color2, color3,
                                                          backend), frame, None))
    ensures q.saved == old(q.saved)
  {
    if pkg == DjangoSageQrcode && save.None? {
      return Fail(TypeError(MissingSave));
    }
    var generated := q.GenerateQrCode(playlistUrl, size, "h", custom, color, color2, color3, backend);
    if generated.Failure? {
      return Fail(generated.error);
    }
    if Truthy(frame) {
      q.qrImage := Some(Framed(q.qrImage.value, frame.value));
    }
    var _ := q.ShowQrCode(false);
    return Pass;
  }

  /** A social code made on a fresh instance succeeds exactly when the URL fits
      and one of the table's domains occurs in the lower-cased URL; it then encodes
      the URL, bears the chosen icon under the optional frame, and the caption on
      top. A URL that fits but names no platform leaves the plain rendering. */
  method SocialOnFreshInstance(url: string, frame: Option<string>, backend: Backend)
    returns (r: Outcome, img: Option<Image>)
    ensures r.Pass? <==> backend.fits && exists i :: 0 <= i < |IconTable| && Contains(Lower(url), IconTable[i].0)
    ensures !backend.fits ==> r == Fail(DataOverflowError) && img.None?
    ensures backend.fits ==> img.Some? && SymbolOf(img.value) == Some(Symbol(url, "h"))
    ensures backend.fits && r.Fail? ==> r.error == ValueError(InvalidLink) && !img.value.Captioned?
    ensures r.Pass? ==> img.value.Captioned? && img.value.text == SocialCaption
    ensures r.Pass? ==> (if Truthy(frame) then img.value.source.Framed? && img.value.source.source.WithIcon?
                         else img.value.source.WithIcon?)
  {
    var q := new QRCodeBase();
    var icon := LookUpIcon(url);
    r := CreateSocialMediaUrl(q, url, false, frame, Some("#000000"), "#FFFFFF", "#000000", 10, backend);
    img := q.qrImage;
    if !backend.fits {
      return;
    }
    RenderPlain(url, 10, "h", None, Some("#000000"), "#FFFFFF", "#000000", backend);
    var plain := Render(url, 10, "h", None, Some("#000000"), "#FFFFFF", "#000000", backend);
    if r.Pass? {
      RenderSymbol(url, 10, "h", None, Some("#000000"), "#FFFFFF", "#000000", backend, None, None);
      assert SymbolOf(WithIcon(plain, icon.value)) == SymbolOf(plain);
      var framed := if Truthy(frame) then Framed(WithIcon(plain, icon.value), frame.value) else WithIcon(plain, icon.value);
      assert SymbolOf(framed) == SymbolOf(plain);
    } else {
      RenderSymbol(url, 10, "h", None, Some("#000000"), "#FFFFFF", "#000000", backend, None, None);
    }
  }

  /** A URL code on a fresh instance is never saved and never captioned, whatever
      `save` says; in the older package a call without `save` fails and leaves no
      image, and so does a URL that does not fit. */
  method UrlOnFreshInstance(pkg: Package, url: string, save: Option<bool>, custom: Option<string>,
                            frame: Option<string>, backend: Backend)
    returns (r: Outcome, img: Option<Image>, saved: seq<Image>)
    ensures saved == []
    ensures r.Fail? <==> img.None?
    ensures img.None? <==> (pkg == DjangoSageQrcode && save.None?) || !backend.fits
    ensures img.Some? ==> !img.value.Captioned? && SymbolOf(img.value) == Some(Symbol(url, "h"))
    ensures img.Some? ==> (img.value.Framed? <==> Truthy(frame))
  {
    var q := new QRCodeBase();
    r := CreateUrl(pkg, q, url, save, custom, frame, Some("#000000"), 10, "#FFFFFF", "#000000", backend);
    img, saved := q.qrImage, q.saved;
    RenderSymbol(url, 10, "h", custom, Some("#000000"), "#FFFFFF", "#000000", backend, frame, None);
    if !Truthy(custom) {
      RenderPlain(url, 10, "h", custom, Some("#000000"), "#FFFFFF", "#000000", backend);
    }
  }

  /** The search from entry `from` on finds nothing iff no later domain occurs, and
      otherwise finds the icon of the first later domain that occurs. */
  lemma {:induction false} FirstIconSearch(table: seq<(string, string)>, lowered: string, from: nat)
    ensures FirstIcon(table, lowered, from).None? <==>
              forall i :: from <= i < |table| ==> !Contains(lowered, table[i].0)
    ensures forall i :: from <= i < |table| && Contains(lowered, table[i].0)
                        && (forall j :: from <= j < i ==> !Contains(lowered, table[j].0)) ==>
              FirstIcon(table, lowered, from) == Some(table[i].1)
    decreases |table| - from
  {
    if from < |table| {
      FirstIconSearch(table, lowered, from + 1);
    }
  }

  /** `IconFor` agrees with the first-match reading of the table: the icon of the
      chosen entry, and no icon exactly when no domain occurs. */
  lemma IconForChosen(url: string)
    ensures IconFor(url).None? <==> forall i :: 0 <= i < |IconTable| ==> !Contains(Lower(url), IconTable[i].0)
    ensures forall i :: ChosenAt(IconTable, Lower(url), i) ==> IconFor(url) == Some(IconTable[i].1)
  {
    FirstIconSearch(IconTable, Lower(url), 0);
  }

  /** A URL whose lower-cased form contains `instagram.com` gets the Instagram
      icon, whatever else it contains and however the domain is capitalised. */
  lemma InstagramAnywhere(a: string, domain: string, b: string)
    requires Lower(domain) == "instagram.com"
    ensures IconFor(a + domain + b) == Some("icons/instagram.png")
  {
    LowerAppend(a + domain, b);
    LowerAppend(a, domain);
    ContainsInfix(Lower(a), "instagram.com", Lower(b));
  }

  /** Matching ignores case: `INSTAGRAM.COM` lowers to the table's key. */
  lemma InstagramUpperCase(a: string, b: string)
    ensures IconFor(a + "INSTAGRAM.COM" + b) == Some("icons/instagram.png")
  {
    LowerInstagram();
    InstagramAnywhere(a, "INSTAGRAM.COM", b);
  }

  lemma LowerInstagram()
    ensures Lower("INSTAGRAM.COM") == "instagram.com"
  {
    LowerEach("INSTAGRAM.COM", "instagram.com");
  }

  lemma LowerAroundTelegram(a: string, b: string)
    ensures Lower(a + "t.me" + b) == Lower(a) + "t.me" + Lower(b)
  {
    LowerAppend(a + "t.me", b);
    LowerAppend(a, "t.me");
    assert Lower("t.me") == "t.me";
  }

  /** `t.me` anywhere in the URL wins over every later entry: unless the URL also
      mentions Instagram or WhatsApp, it gets the Telegram icon. */
  lemma TelegramShadows(a: string, b: string)
    requires !Contains(Lower(a + "t.me" + b), "instagram.com")
    requires !Contains(Lower(a + "t.me" + b), "whatsapp.com")
    ensures IconFor(a + "t.me" + b) == Some("icons/gram.png")
  {
    var lowered := Lower(a + "t.me" + b);
    LowerAroundTelegram(a, b);
    ContainsInfix(Lower(a), "t.me", Lower(b));
    assert Contains(lowered, IconTable[2].0);
    assert FirstIcon(IconTable, lowered, 0) == FirstIcon(IconTable, lowered, 2);
  }

  /** Every domain of the table holds one of the letters `e`, `i`, `k`, `n`, `w`,
      `f`, so a lower-cased URL lacking all six contains no domain of the table. */
  lemma NoKeyWithoutLetters(lowered: string)
    requires 'e' !in lowered && 'i' !in lowered && 'k' !in lowered
    requires 'n' !in lowered && 'w' !in lowered && 'f' !in lowered
    ensures forall i :: 0 <= i < |IconTable| ==> !Contains(lowered, IconTable[i].0)
  {
    var s := lowered;
    assert !Contains(s, IconTable[0].0) by { MissingChar(s, "instagram.com", 0); }
    assert !Contains(s, IconTable[1].0) by { MissingChar(s, "whatsapp.com", 0); }
    assert !Contains(s, IconTable[2].0) by { MissingChar(s, "t.me", 3); }
    assert !Contains(s, IconTable[3].0) by { MissingChar(s, "facebook.com", 0); }
    assert !Contains(s, IconTable[4].0) by { MissingChar(s, "twitter.com", 1); }
    assert !Contains(s, IconTable[5].0) by { MissingChar(s, "linkedin.com", 1); }
    assert !Contains(s, IconTable[6].0) by { MissingChar(s, "snapchat.com", 1); }
    assert !Contains(s, IconTable[7].0) by { MissingChar(s, "tiktok.com", 1); }
    assert !Contains(s, IconTable[8].0) by { MissingChar(s, "skype.com", 1); }
  }

  /** The X profile host is already lower-case. */
  lemma LowerXHost()
    ensures Lower("https://x.com/") == "https://x.com/"
  {
    LowerOfLower("https://x.com/");
  }

  /** The Facebook profile host is already lower-case. */
  lemma LowerFacebookHost()
    ensures Lower("https://facebook.com/") == "https://facebook.com/"
  {
    LowerOfLower("https://facebook.com/");
  }

  /** Lower-casing a profile URL whose host part is already lower-case only
      lowers the handle. */
  lemma LowerProfile(host: string, handle: string)
    requires Lower(host) == host
    ensures Lower(host + handle) == host + Lower(handle)
  {
    LowerAppend(host, handle);
  }

  /** The older package's X profiles live on `x.com`, which is not in the table.
      Every domain of the table has a `.` that follows a letter other than `x`,
      while the only `.` of `https://x.com/` plus a handle without one follows an
      `x`: no domain occurs, so `create_social_media_url` raises for every such
      profile, which includes every handle the older X validator accepts. */
  lemma XProfileHasNoIcon(handle: string)
    requires '.' !in handle
    ensures IconFor("https://x.com/" + handle) == None
  {
    var host := "https://x.com/";
    LowerXHost();
    LowerProfile(host, handle);
    LowerNoDot(handle);
    var lowered := host + Lower(handle);
    forall j | 0 < j < |lowered|
      ensures DotFollowsX(lowered, j)
    {
      if j < |host| {
        XHostDots(j);
      }
    }
    DotsAfterX(lowered);
    IconForChosen(host + handle);
  }

  /** The only `.` of the X host is the one after `x`. */
  lemma XHostDots(j: int)
    requires 0 < j < |"https://x.com/"|
    ensures DotFollowsX("https://x.com/", j)
  {
  }

  /** The character at `j` is not a `.`, or it follows an `x`. */
  predicate DotFollowsX(s: string, j: int)
    requires 0 < j < |s|
  {
    s[j] == '.' ==> s[j - 1] == 'x'
  }

  /** Every `.` of the text follows an `x`. */
  predicate DotsFollowX(s: string) {
    forall j :: 0 < j < |s| ==> DotFollowsX(s, j)
  }

  /** A text in which every `.` follows an `x` contains no domain of the table:
      each domain's first `.` follows another letter. */
  lemma DotsAfterX(s: string)
    requires DotsFollowX(s)
    ensures forall i :: 0 <= i < |IconTable| ==> !Contains(s, IconTable[i].0)
  {
    DotKeyAbsent(s, "instagram.com", 9);
    DotKeyAbsent(s, "whatsapp.com", 8);
    DotKeyAbsent(s, "t.me", 1);
    DotKeyAbsent(s, "facebook.com", 8);
    DotKeyAbsent(s, "twitter.com", 7);
    DotKeyAbsent(s, "linkedin.com", 8);
    DotKeyAbsent(s, "snapchat.com", 8);
    DotKeyAbsent(s, "tiktok.com", 6);
    DotKeyAbsent(s, "skype.com", 5);
  }

  /** A key whose `.` at position `d` follows a letter that never precedes a `.` of
      the text does not occur in it. */
  lemma DotKeyAbsent(s: string, key: string, d: nat)
    requires 0 < d < |key| && key[d] == '.' && key[d - 1] != 'x'
    requires DotsFollowX(s)
    ensures !Contains(s, key)
  {
    forall i | 0 <= i && i + |key| <= |s|
      ensures !OccursAt(s, key, i)
    {
      assert DotFollowsX(s, i + d);
      assert s[i..i + |key|][d] == s[i + d];
      assert s[i..i + |key|][d - 1] == s[i + d - 1];
    }
    ContainsAt(s, key);
  }

  /** A Facebook profile whose handle contains `t.me` (such as `pat.meyer`) gets
      the Telegram icon. */
  lemma FacebookHandleShadowed(a: string, b: string)
    requires 'i' !in Lower(a) && 'w' !in Lower(a) && 'i' !in Lower(b) && 'w' !in Lower(b)
    ensures IconFor("https://facebook.com/" + a + "t.me" + b) == Some("icons/gram.png")
  {
    var lowered := Lower("https://facebook.com/" + a + "t.me" + b);
    LowerFacebookTelegram(a, b);
    FacebookTelegramLetters(Lower(a), Lower(b));
    MissingChar(lowered, "instagram.com", 0);
    MissingChar(lowered, "whatsapp.com", 0);
    TelegramShadows("https://facebook.com/" + a, b);
  }

  lemma LowerFacebookTelegram(a: string, b: string)
    ensures Lower("https://facebook.com/" + a + "t.me" + b) == "https://facebook.com/" + Lower(a) + "t.me" + Lower(b)
  {
    assert "https://facebook.com/" + a + "t.me" + b == "https://facebook.com/" + (a + "t.me" + b);
    assert Lower("https://facebook.com/" + (a + "t.me" + b)) == "https://facebook.com/" + Lower(a + "t.me" + b) by {
      LowerFacebookHost();
      LowerProfile("https://facebook.com/", a + "t.me" + b);
    }
    LowerAroundTelegram(a, b);
  }

  /** Neither `i` nor `w` occurs in a Facebook profile URL whose handle parts lack them. */
  lemma FacebookTelegramLetters(la: string, lb: string)
    requires 'i' !in la && 'w' !in la && 'i' !in lb && 'w' !in lb
    ensures 'i' !in "https://facebook.com/" + la + "t.me" + lb
    ensures 'w' !in "https://facebook.com/" + la + "t.me" + lb
  {
    assert 'i' !in "https://facebook.com/" && 'w' !in "https://facebook.com/";
    assert 'i' !in "t.me" && 'w' !in "t.me";
  }
}
