/** The admin helpers (`utils/admin.py` of the current package, `admin/utils.py`
    of the older one): generating the image of a stored QR code or barcode, which
    first defaults the object's size and colour fields in place; choosing the
    download response by the number of selected objects; and naming the stored
    image files. */
module AdminUtils {
  import opened Python
  import opened Text
  import opened Images
  import opened Base
  import opened Packages
  import opened Payloads
  import opened Finishing
  import opened PaymentService
  import opened ContactService
  import opened SocialService
  import Barcode

  /** The social platforms with a profile URL field. */
  datatype Platform = TikTok | Telegram | Instagram | Snapchat | Skype | Facebook | LinkedIn | X

  /** The concrete class of a stored QR code and the fields `generate_qr_code`
      reads from it. */
  datatype Kind =
    | VCard(fullName: string, displayName: Option<string>, email: Option<string>, phone: Option<string>,
            url: Option<string>, address: Option<string>, org: Option<string>)
    | Wifi(ssid: string, password: string, security: string)
    | Social(platform: Platform, profileUrl: string)
      /** `WhatsAppQRCode` stores a phone number and a message, and has no `url`. */
    | WhatsApp(phoneNumber: string, message: string)
    | MediaUrl(mediaUrl: string)
    | Epc(name: string, iban: string, amount: Amount, text: string)
    | Bitcoin(bitcoinAddress: string, btcAmount: Amount, labelText: string, btcMessage: string)
      /** Any other subclass of `QRCode`, by class name. */
    | Other(className: string)

  function PlatformClass(p: Platform): string {
    match p
    case TikTok => "TikTokQRCode"
    case Telegram => "TelegramQRCode"
    case Instagram => "InstagramQRCode"
    case Snapchat => "SnapchatQRCode"
    case Skype => "SkypeQRCode"
    case Facebook => "FacebookQRCode"
    case LinkedIn => "LinkedInQRCode"
    case X => "XQRCode"
  }

  function ClassName(kind: Kind): string {
    match kind
    case VCard(_, _, _, _, _, _, _) => "VCardQRCode"
    case Wifi(_, _, _) => "WifiQRCode"
    case Social(p, _) => PlatformClass(p)
    case WhatsApp(_, _) => "WhatsAppQRCode"
    case MediaUrl(_) => "MediaUrl"
    case Epc(_, _, _, _) => "EPCQRCode"
    case Bitcoin(_, _, _, _) => "BitcoinQRCode"
    case Other(name) => name
  }

  /** The classes routed to the social branch (`media_classes`): the older package
      leaves out `XQRCode`. */
  function MediaClasses(pkg: Package): seq<string> {
    ["TikTokQRCode", "TelegramQRCode", "InstagramQRCode", "SnapchatQRCode", "SkypeQRCode",
     "WhatsAppQRCode", "FacebookQRCode", "LinkedInQRCode"]
    + (if pkg == SageQrcode then ["XQRCode"] else [])
  }

  /** The branch of the `isinstance` chain an object takes. */
  datatype Builder = VCardBuilder | WifiBuilder | SocialBuilder | UrlBuilder | EpcBuilder | BitcoinBuilder | NoBuilder

  function Route(pkg: Package, kind: Kind): Builder {
    match kind
    case VCard(_, _, _, _, _, _, _) => VCardBuilder
    case Wifi(_, _, _) => WifiBuilder
    case Social(p, _) => if p == X && pkg == DjangoSageQrcode then NoBuilder else SocialBuilder
    case WhatsApp(_, _) => SocialBuilder
    case MediaUrl(_) => UrlBuilder
    case Epc(_, _, _, _) => EpcBuilder
    case Bitcoin(_, _, _, _) => BitcoinBuilder
    case Other(_) => NoBuilder
  }

  /** The social branch is taken exactly for the classes in `media_classes`. */
  lemma RouteSocialIffMediaClass(pkg: Package, kind: Kind)
    requires kind.Other? ==> kind.className !in MediaClasses(SageQrcode)
    ensures Route(pkg, kind) == SocialBuilder <==> ClassName(kind) in MediaClasses(pkg)
  {
    var m := MediaClasses(pkg);
    if pkg == SageQrcode {
      assert m[8] == "XQRCode";
    }
    match kind
    case Social(p, _) => {
      match p
      case TikTok => assert m[0] == PlatformClass(p);
      case Telegram => assert m[1] == PlatformClass(p);
      case Instagram => assert m[2] == PlatformClass(p);
      case Snapchat => assert m[3] == PlatformClass(p);
      case Skype => assert m[4] == PlatformClass(p);
      case Facebook => assert m[6] == PlatformClass(p);
      case LinkedIn => assert m[7] == PlatformClass(p);
      case X =>
    }
    case WhatsApp(_, _) => assert m[5] == "WhatsAppQRCode";
    case _ =>
  }

  /** Python's message for reading an attribute an object does not have. */
  function NoAttribute(className: string, attribute: string): string {
    "'" + className + "' object has no attribute '" + attribute + "'"
  }

  /** `obj.size or 10`. */
  function SizeOrDefault(size: Option<int>): (r: int)
    ensures r != 0
    ensures TruthyInt(size) ==> r == size.value
    ensures !TruthyInt(size) ==> r == 10
  {
    if TruthyInt(size) then size.value else 10
  }

  /** `value if value else default` for a colour field. */
  function ColorOrDefault(color: Option<string>, default: string): (r: string)
    ensures Truthy(color) ==> r == color.value
    ensures !Truthy(color) ==> r == default
  {
    if Truthy(color) then color.value else default
  }

  /** The text each kind encodes. */
  function Payload(kind: Kind, makeWifiData: (string, string, string) -> string): Option<string> {
    match kind
    case VCard(n, d, e, p, u, a, o) => Some(VCardData(Some(n), d, e, p, o, a, u))
    case Wifi(s, pw, sec) => Some(makeWifiData(s, pw, sec))
    case Social(_, url) => Some(url)
    case WhatsApp(_, _) => None
    case MediaUrl(url) => Some(url)
    case Epc(n, i, amt, t) => Some(EpcData(n, i, amt, t))
    case Bitcoin(addr, amt, l, m) => Some(BitcoinUri(addr, Some(amt), Some(l), Some(m)))
    case Other(_) => None
  }

  /** The image of the vCard, Wi-Fi and EPC branches: rendered at level `h`, with
      the branch's caption unless a custom GIF is used. */
  function ContactImage(data: string, size: int, custom: Option<string>, color: Option<string>, light: string,
                        dark: string, backend: Backend, caption: string): Image
  {
    Decorate(Render(data, size, "h", custom, color, light, dark, backend), None, CaptionFor(Truthy(custom), caption))
  }

  /** The social branch: the profile URL with the icon of its platform, always
      captioned, or `ValueError` when no icon key occurs in it. */
  function SocialImage(url: string, size: int, color: Option<string>, color2: string, color3: string,
                       backend: Backend): Result<Image>
  {
    var icon := IconFor(url);
    if icon.None? then Failure(ValueError(InvalidLink))
    else Success(Decorate(WithIcon(Render(url, size, "h", None, color, color2, color3, backend), icon.value),
                          None, Some(SocialCaption)))
  }

  /** The Bitcoin branch: size 10, black, no custom GIF, always captioned. */
  function BitcoinImage(uri: string, color2: string, color3: string, backend: Backend): Image {
    Decorate(Render(uri, 10, "h", None, Some("#000000"), color2, color3, backend), None, Some(BitcoinCaption))
  }

  /** What `generate_qr_code` returns for an object once its fields are defaulted:
      `custom` is the custom GIF path (when the object has a GIF), `size`, `color2`
      and `color3` the defaulted fields. Every builder that reaches `segno.make`
      raises its `DataOverflowError` when the payload does not fit. */
  function Generated(pkg: Package, kind: Kind, custom: Option<string>, color: Option<string>, size: int,
                     color2: string, color3: string, backend: Backend,
                     makeWifiData: (string, string, string) -> string): Result<Image>
  {
    match Route(pkg, kind)
    case VCardBuilder =>
      if !backend.fits then Failure(DataOverflowError)
      else Success(ContactImage(Payload(kind, makeWifiData).value, size, custom, color, color2, color3, backend,
                                VCardCaption))
    case WifiBuilder =>
      if !backend.fits then Failure(DataOverflowError)
      else Success(ContactImage(Payload(kind, makeWifiData).value, size, custom, color, DefaultLight,
                                DefaultFinder, backend, WifiCaption))
    case SocialBuilder =>
      if kind.WhatsApp? then Failure(AttributeError(NoAttribute("WhatsAppQRCode", "url")))
      else if !backend.fits then Failure(DataOverflowError)
      else SocialImage(kind.profileUrl, size, color, color2, color3, backend)
    case UrlBuilder =>
      if pkg == DjangoSageQrcode then Failure(TypeError(MissingSave))
      else if !backend.fits then Failure(DataOverflowError)
      else Success(Decorate(Render(kind.mediaUrl, size, "h", custom, color, color2, color3, backend), None, None))
    case EpcBuilder =>
      if !backend.fits then Failure(DataOverflowError)
      else Success(ContactImage(Payload(kind, makeWifiData).value, size, custom, color, color2, color3, backend,
                                EpcCaption))
    case BitcoinBuilder =>
      if !backend.fits then Failure(DataOverflowError)
      else Success(BitcoinImage(Payload(kind, makeWifiData).value, color2, color3, backend))
    case NoBuilder => Failure(ValueError(NotGenerated))
  }

  /** A stored QR code: the fields `generate_qr_code` reads and defaults. */
  class QRCodeRecord {
    const kind: Kind
    /** Whether `custom_gif` holds a file. */
    const customGif: bool
    /** `custom_gif_path`, an attribute only the admin forms set; `None` when it was
        never set. */
    const customGifPath: Option<string>
    var size: Option<int>
    var color: Option<string>
    var secondColor: Option<string>
    var thirdColor: Option<string>

    constructor(kind: Kind, customGif: bool, customGifPath: Option<string>, size: Option<int>,
                color: Option<string>, secondColor: Option<string>, thirdColor: Option<string>)
      ensures this.kind == kind && this.customGif == customGif && this.customGifPath == customGifPath
      ensures this.size == size && this.color == color
      ensures this.secondColor == secondColor && this.thirdColor == thirdColor
    {
      this.kind := kind;
      this.customGif := customGif;
      this.customGifPath := customGifPath;
      this.size := size;
      this.color := color;
      this.secondColor := secondColor;
      this.thirdColor := thirdColor;
    }

    /** Reading `custom_gif_path` when the object has a GIF fails if no form set it. */
    predicate MissingGifPath() {
      customGif && customGifPath.None?
    }

    /** `obj.custom_gif_path if obj.custom_gif else None`. */
    function Custom(): Option<string>
      requires !MissingGifPath()
    {
      if customGif then customGifPath else None
    }
  }

  /** `generate_qr_code(obj)`: reads the custom GIF path, defaults the size and
      the second and third colours in place, then builds and shows the image. */
  method GenerateQrCode(pkg: Package, obj: QRCodeRecord, backend: Backend,
                        makeWifiData: (string, string, string) -> string)
    returns (r: Result<Image>)
    modifies obj
    ensures obj.MissingGifPath() ==>
              && r == Failure(AttributeError(NoAttribute(ClassName(obj.kind), "custom_gif_path")))
              && unchanged(obj)
    ensures !obj.MissingGifPath() ==>
              && obj.size == Some(SizeOrDefault(old(obj.size)))
              && obj.secondColor == Some(ColorOrDefault(old(obj.secondColor), "#FFFFFF"))
              && obj.thirdColor == Some(ColorOrDefault(old(obj.thirdColor), "#000000"))
              && obj.color == old(obj.color)
              && r == Generated(pkg, obj.kind, obj.Custom(), obj.color, obj.size.value, obj.secondColor.value,
                                obj.thirdColor.value, backend, makeWifiData)
  {
    if obj.MissingGifPath() {
      return Failure(AttributeError(NoAttribute(ClassName(obj.kind), "custom_gif_path")));
    }
    var custom := obj.Custom();
    obj.size := Some(SizeOrDefault(obj.size));
    if !Truthy(obj.secondColor) {
      obj.secondColor := Some("#FFFFFF");
    }
    if !Truthy(obj.thirdColor) {
      obj.thirdColor := Some("#000000");
    }
    r := BuildAndShow(pkg, obj.kind, custom, obj.color, obj.size.value, obj.secondColor.value, obj.thirdColor.value,
                      backend, makeWifiData);
  }

  /** The `isinstance` chain of `generate_qr_code` and its final `show_qr_code`:
      the builder of the object's class runs on a fresh service object, whose
      image is handed to the proxy that is shown without saving. An object of no
      listed class leaves the proxy's image `None`, so showing raises; errors of the
      builders escape. */
  method BuildAndShow(pkg: Package, kind: Kind, custom: Option<string>, color: Option<string>, size: int,
                      color2: string, color3: string, backend: Backend,
                      makeWifiData: (string, string, string) -> string)
    returns (r: Result<Image>)
    ensures r == Generated(pkg, kind, custom, color, size, color2, color3, backend, makeWifiData)
  {
    if Route(pkg, kind) == SocialBuilder || Route(pkg, kind) == UrlBuilder {
      r := BuildAndShowLink(pkg, kind, custom, color, size, color2, color3, backend);
      return;
    }
    var proxy := new QRCodeBase();
    match Route(pkg, kind) {
    case VCardBuilder =>
      var contact := new QRCodeBase();
      var outcome := GenerateVCardQrCode(contact, Some(kind.fullName), kind.displayName, kind.email, kind.phone,
                                         color, kind.org, kind.url, kind.address, false, size, custom, None,
                                         color2, color3, backend);
      if outcome.Fail? {
        return Failure(outcome.error);
      }
      proxy.qrImage := contact.qrImage;
    case WifiBuilder =>
      var contact := new QRCodeBase();
      var outcome := GenerateWifiQrCode(contact, makeWifiData, kind.ssid, kind.password, kind.security, false,
                                        custom, None, color, size, color2, color3, backend);
      if outcome.Fail? {
        return Failure(outcome.error);
      }
      proxy.qrImage := contact.qrImage;
    case EpcBuilder =>
      var payment := new QRCodeBase();
      var outcome := GenerateEpcQrCode(payment, kind.name, kind.iban, kind.amount, kind.text, false, custom,
                                       None, color, size, color2, color3, backend);
      if outcome.Fail? {
        return Failure(outcome.error);
      }
      proxy.qrImage := payment.qrImage;
    case BitcoinBuilder =>
      var payment := new QRCodeBase();
      var outcome := GenerateBitcoinQrCode(payment, kind.bitcoinAddress, Some(kind.btcAmount),
                                           Some(kind.labelText), false, Some(kind.btcMessage), 10,
                                           Some("#000000"), None, color2, color3, backend);
      if outcome.Fail? {
        return Failure(outcome.error);
      }
      proxy.qrImage := payment.qrImage;
    case NoBuilder =>
    case SocialBuilder =>
    case UrlBuilder =>
    }
    r := proxy.ShowQrCode(false);
  }

  /** The social and media URL branches of `generate_qr_code`: a WhatsApp code
      fails on its missing `url` before any service runs; otherwise the service's
      error escapes, or its image is handed to the proxy and shown. */
  method BuildAndShowLink(pkg: Package, kind: Kind, custom: Option<string>, color: Option<string>, size: int,
                          color2: string, color3: string, backend: Backend)
    returns (r: Result<Image>)
    requires Route(pkg, kind) == SocialBuilder || Route(pkg, kind) == UrlBuilder
    ensures forall makeWifiData: (string, string, string) -> string ::
              r == Generated(pkg, kind, custom, color, size, color2, color3, backend, makeWifiData)
  {
    var proxy := new QRCodeBase();
    if Route(pkg, kind) == SocialBuilder {
      if kind.WhatsApp? {
        return Failure(AttributeError(NoAttribute("WhatsAppQRCode", "url")));
      }
      var social := new QRCodeBase();
      var outcome := CreateSocialMediaUrl(social, kind.profileUrl, false, None, color, color2, color3, size,
                                          backend);
      if outcome.Fail? {
        return Failure(outcome.error);
      }
      proxy.qrImage := social.qrImage;
    } else {
      var social := new QRCodeBase();
      var outcome := CreateUrl(pkg, social, kind.mediaUrl, None, custom, None, color, size, color2, color3,
                               backend);
      if outcome.Fail? {
        return Failure(outcome.error);
      }
      proxy.qrImage := social.qrImage;
    }
    r := proxy.ShowQrCode(false);
  }

  // ------------------------------------------------------------- what is generated

  /** `generate_qr_code` raises exactly for an object of no listed class (showing
      the empty proxy raises `ValueError`), a WhatsApp code (it has no `url`), a
      media URL in the older package (`create_url` is called without `save`), any
      other payload that does not fit (`DataOverflowError`), and a social URL that
      fits but names no platform of the icon table. */
  lemma GeneratedFailures(pkg: Package, kind: Kind, custom: Option<string>, color: Option<string>, size: int,
                          color2: string, color3: string, backend: Backend,
                          makeWifiData: (string, string, string) -> string)
    ensures var r := Generated(pkg, kind, custom, color, size, color2, color3, backend, makeWifiData);
      && (r.Failure? <==>
            || Route(pkg, kind) == NoBuilder
            || kind.WhatsApp?
            || (kind.MediaUrl? && pkg == DjangoSageQrcode)
            || !backend.fits
            || (Route(pkg, kind) == SocialBuilder && kind.Social?
                && forall i :: 0 <= i < |IconTable| ==> !Contains(Lower(kind.profileUrl), IconTable[i].0)))
      && (Route(pkg, kind) == NoBuilder ==> r == Failure(ValueError(NotGenerated)))
      && (kind.WhatsApp? ==> r == Failure(AttributeError(NoAttribute("WhatsAppQRCode", "url"))))
      && (kind.MediaUrl? && pkg == DjangoSageQrcode ==> r == Failure(TypeError(MissingSave)))
      && ((Route(pkg, kind) != NoBuilder && !kind.WhatsApp? && !(kind.MediaUrl? && pkg == DjangoSageQrcode)
           && !backend.fits) ==> r == Failure(DataOverflowError))
      && (kind.Social? && Route(pkg, kind) == SocialBuilder && backend.fits && r.Failure? ==>
            r == Failure(ValueError(InvalidLink)))
  {
    if kind.Social? {
      IconForChosen(kind.profileUrl);
    }
  }

  /** Whatever the branch, a generated image shows the QR symbol of the object's
      payload at error level `h`. */
  lemma GeneratedSymbol(pkg: Package, kind: Kind, custom: Option<string>, color: Option<string>, size: int,
                        color2: string, color3: string, backend: Backend,
                        makeWifiData: (string, string, string) -> string)
    ensures var r := Generated(pkg, kind, custom, color, size, color2, color3, backend, makeWifiData);
      r.Success? ==> Payload(kind, makeWifiData).Some?
                     && SymbolOf(r.value) == Some(Symbol(Payload(kind, makeWifiData).value, "h"))
  {
    var r := Generated(pkg, kind, custom, color, size, color2, color3, backend, makeWifiData);
    if r.Success? {
      var data := Payload(kind, makeWifiData).value;
      match Route(pkg, kind)
      case VCardBuilder =>
        RenderSymbol(data, size, "h", custom, color, color2, color3, backend, None, CaptionFor(Truthy(custom), VCardCaption));
      case WifiBuilder =>
        RenderSymbol(data, size, "h", custom, color, DefaultLight, DefaultFinder, backend, None,
                     CaptionFor(Truthy(custom), WifiCaption));
      case SocialBuilder =>
        var plain := Render(data, size, "h", None, color, color2, color3, backend);
        RenderSymbol(data, size, "h", None, color, color2, color3, backend, None, None);
        assert SymbolOf(WithIcon(plain, IconFor(data).value)) == SymbolOf(plain);
      case UrlBuilder =>
        RenderSymbol(data, size, "h", custom, color, color2, color3, backend, None, None);
      case EpcBuilder =>
        RenderSymbol(data, size, "h", custom, color, color2, color3, backend, None, CaptionFor(Truthy(custom), EpcCaption));
      case BitcoinBuilder =>
        RenderSymbol(data, 10, "h", None, Some("#000000"), color2, color3, backend, None, Some(BitcoinCaption));
      case NoBuilder =>
    }
  }

  /** The caption each branch draws, if any. */
  function CaptionText(kind: Kind): string {
    match kind
    case VCard(_, _, _, _, _, _, _) => VCardCaption
    case Wifi(_, _, _) => WifiCaption
    case Epc(_, _, _, _) => EpcCaption
    case Bitcoin(_, _, _, _) => BitcoinCaption
    case _ => SocialCaption
  }

  /** No frame is ever drawn by the admin; a caption is drawn on social and
      Bitcoin codes always, on media URLs never, and on the other codes exactly
      when no custom GIF is used. */
  lemma GeneratedCaption(pkg: Package, kind: Kind, custom: Option<string>, color: Option<string>, size: int,
                         color2: string, color3: string, backend: Backend,
                         makeWifiData: (string, string, string) -> string)
    ensures var r := Generated(pkg, kind, custom, color, size, color2, color3, backend, makeWifiData);
      r.Success? ==>
        && (r.value.Captioned? <==> !kind.MediaUrl? && (kind.Social? || kind.Bitcoin? || !Truthy(custom)))
        && (r.value.Captioned? ==> r.value.text == CaptionText(kind) && !r.value.source.Framed?)
        && !r.value.Framed?
  {
    var r := Generated(pkg, kind, custom, color, size, color2, color3, backend, makeWifiData);
    if r.Success? && Route(pkg, kind) in {VCardBuilder, WifiBuilder, EpcBuilder} {
      var light, dark := if kind.Wifi? then DefaultLight else color2, if kind.Wifi? then DefaultFinder else color3;
      var img := Render(Payload(kind, makeWifiData).value, size, "h", custom, color, light, dark, backend);
      CaptionIffPlain(img, Truthy(custom), None, CaptionText(kind));
    }
  }

  /** The Bitcoin branch passes neither the custom GIF, nor the colour, nor the
      size: the image depends on none of them. */
  lemma BitcoinIgnoresCustomColorSize(pkg: Package, kind: Kind, custom: Option<string>, custom': Option<string>,
                                      color: Option<string>, color': Option<string>, size: int, size': int,
                                      color2: string, color3: string, backend: Backend,
                                      makeWifiData: (string, string, string) -> string)
    requires kind.Bitcoin?
    ensures Generated(pkg, kind, custom, color, size, color2, color3, backend, makeWifiData)
         == Generated(pkg, kind, custom', color', size', color2, color3, backend, makeWifiData)
    ensures var r := Generated(pkg, kind, custom, color, size, color2, color3, backend, makeWifiData);
      && (r.Success? <==> backend.fits)
      && (r.Success? && backend.acceptsColors ==> PaletteOf(r.value) == Some(Palette(Some("#000000"), color2, color3)))
  {
    var uri := BitcoinUri(kind.bitcoinAddress, Some(kind.btcAmount), Some(kind.labelText), Some(kind.btcMessage));
    GeneratedBitcoin(pkg, kind, custom, color, size, color2, color3, backend, makeWifiData);
    GeneratedBitcoin(pkg, kind, custom', color', size', color2, color3, backend, makeWifiData);
    RenderSymbol(uri, 10, "h", None, Some("#000000"), color2, color3, backend, None, Some(BitcoinCaption));
  }

  /** The Bitcoin branch of `Generated`: the captioned URI code, or the overflow. */
  lemma GeneratedBitcoin(pkg: Package, kind: Kind, custom: Option<string>, color: Option<string>, size: int,
                         color2: string, color3: string, backend: Backend,
                         makeWifiData: (string, string, string) -> string)
    requires kind.Bitcoin?
    ensures Generated(pkg, kind, custom, color, size, color2, color3, backend, makeWifiData)
         == if backend.fits
            then Success(BitcoinImage(BitcoinUri(kind.bitcoinAddress, Some(kind.btcAmount), Some(kind.labelText),
                                                 Some(kind.btcMessage)), color2, color3, backend))
            else Failure(DataOverflowError)
  {
  }

  /** The social branch passes no custom GIF. */
  lemma SocialIgnoresCustom(pkg: Package, kind: Kind, custom: Option<string>, custom': Option<string>,
                            color: Option<string>, size: int, color2: string, color3: string, backend: Backend,
                            makeWifiData: (string, string, string) -> string)
    requires kind.Social?
    ensures Generated(pkg, kind, custom, color, size, color2, color3, backend, makeWifiData)
         == Generated(pkg, kind, custom', color, size, color2, color3, backend, makeWifiData)
  {
  }

  /** A stored Bitcoin code always has an amount, a label and a message, so its URI
      always carries all three keys, in that order, even when the label or the
      message is empty. */
  lemma AdminBitcoinUri(address: string, amount: Amount, labelText: string, message: string,
                        makeWifiData: (string, string, string) -> string)
    ensures Payload(Bitcoin(address, amount, labelText, message), makeWifiData)
         == Some("bitcoin:" + address + "?" + Join([QueryField("amount", amount.text), QueryField("label", labelText),
                                                    QueryField("message", message)], '&'))
  {
    var fields := [QueryField("amount", amount.text), QueryField("label", labelText), QueryField("message", message)];
    assert QueryFields(Some(amount), Some(labelText), Some(message))
        == [QueryField("amount", amount.text)] + [QueryField("label", labelText)] + [QueryField("message", message)];
    UriOfQuery(address, Some(amount), Some(labelText), Some(message), fields);
  }

  /** X codes: the current package draws them through the social branch, and a
      profile on `twitter.com` (the host its X validator requires) always finds an
      icon, so it succeeds whenever it fits; the older package has no branch for
      them, so generation raises. */
  lemma XDispatch(pkg: Package, url: string, custom: Option<string>, color: Option<string>, size: int,
                  color2: string, color3: string, backend: Backend,
                  makeWifiData: (string, string, string) -> string)
    ensures var r := Generated(pkg, Social(X, url), custom, color, size, color2, color3, backend, makeWifiData);
      && (pkg == DjangoSageQrcode ==> r == Failure(ValueError(NotGenerated)))
      && (pkg == SageQrcode && Contains(Lower(url), "twitter.com") ==> (r.Success? <==> backend.fits))
  {
    if pkg == SageQrcode && Contains(Lower(url), "twitter.com") {
      assert IconFor(url).Some? by {
        IconForChosen(url);
        assert IconTable[4].0 == "twitter.com";
      }
    }
  }

  // ------------------------------------------------------------- on stored objects

  /** Generating twice for the same stored object gives the same result: the first
      run leaves the size and colours truthy, so the second keeps them. */
  method RegenerateIsStable(pkg: Package, kind: Kind, customGif: bool, customGifPath: Option<string>,
                            size: Option<int>, color: Option<string>, secondColor: Option<string>,
                            thirdColor: Option<string>, backend: Backend,
                            makeWifiData: (string, string, string) -> string)
    returns (first: Result<Image>, second: Result<Image>, sizeAfter: Option<int>, colorsAfter: (Option<string>, Option<string>))
    ensures first == second
    ensures customGif && customGifPath.None? ==>
              first == Failure(AttributeError(NoAttribute(ClassName(kind), "custom_gif_path")))
              && sizeAfter == size && colorsAfter == (secondColor, thirdColor)
    ensures !(customGif && customGifPath.None?) ==>
              && TruthyInt(sizeAfter) && Truthy(colorsAfter.0) && Truthy(colorsAfter.1)
              && (TruthyInt(size) ==> sizeAfter == size)
              && (!TruthyInt(size) ==> sizeAfter == Some(10))
              && (Truthy(secondColor) ==> colorsAfter.0 == secondColor)
              && (!Truthy(secondColor) ==> colorsAfter.0 == Some("#FFFFFF"))
              && (Truthy(thirdColor) ==> colorsAfter.1 == thirdColor)
              && (!Truthy(thirdColor) ==> colorsAfter.1 == Some("#000000"))
  {
    var obj := new QRCodeRecord(kind, customGif, customGifPath, size, color, secondColor, thirdColor);
    first := GenerateQrCode(pkg, obj, backend, makeWifiData);
    sizeAfter, colorsAfter := obj.size, (obj.secondColor, obj.thirdColor);
    second := GenerateQrCode(pkg, obj, backend, makeWifiData);
  }

  // ------------------------------------------------------------- barcodes

  /** The concrete class of a stored barcode and the field it encodes. */
  datatype BarcodeKind = BarcodeUrl(url: string) | BarcodeText(body: string) | OtherBarcode(className: string)

  /** A stored barcode: the colour fields `generate_barcode_image` defaults. */
  class BarcodeRecord {
    const kind: BarcodeKind
    var color: Option<string>
    var secondColor: Option<string>

    constructor(kind: BarcodeKind, color: Option<string>, secondColor: Option<string>)
      ensures this.kind == kind && this.color == color && this.secondColor == secondColor
    {
      this.kind := kind;
      this.color := color;
      this.secondColor := secondColor;
    }
  }

  /** `generate_barcode_image(obj)`: defaults the bar colour to `black` and the
      background to `white` in place, draws the URL or the text on a fresh proxy
      and shows it without saving; any other class leaves the proxy empty, so
      showing raises. `shortUrl` is the shortening service's answer. */
  method GenerateBarcodeImage(obj: BarcodeRecord, shortUrl: string) returns (r: Result<Image>)
    modifies obj
    ensures obj.color == Some(ColorOrDefault(old(obj.color), "black"))
    ensures obj.secondColor == Some(ColorOrDefault(old(obj.secondColor), "white"))
    ensures obj.kind.BarcodeUrl? ==>
              r == Success(Barcode.Rendering(obj.kind.url, "code128", obj.color.value, obj.secondColor.value, shortUrl))
    ensures obj.kind.BarcodeText? ==>
              r == Success(Barcode.Rendering(obj.kind.body, "code128", obj.color.value, obj.secondColor.value, shortUrl))
    ensures obj.kind.OtherBarcode? ==> r == Failure(ValueError(Barcode.NotGenerated))
  {
    var proxy := new Barcode.BarcodeProxy();
    if !Truthy(obj.color) {
      obj.color := Some("black");
    }
    if !Truthy(obj.secondColor) {
      obj.secondColor := Some("white");
    }
    match obj.kind {
    case BarcodeUrl(url) =>
      proxy.CreateUrl(url, false, obj.color.value, obj.secondColor.value, shortUrl);
    case BarcodeText(body) =>
      proxy.CreateTextBarcode(body, false, obj.color.value, obj.secondColor.value, shortUrl);
    case OtherBarcode(_) =>
    }
    r := proxy.ShowBarcode(false);
  }

  /** A stored barcode with empty colour fields is drawn black on white, and a
      URL of at most 80 characters is encoded as it is. */
  method BarcodeDefaults(kind: BarcodeKind, shortUrl: string) returns (r: Result<Image>)
    ensures r.Success? <==> !kind.OtherBarcode?
    ensures r.Success? ==> r.value.BarcodeImage? && r.value.foreground == "black" && r.value.background == "white"
    ensures kind.BarcodeUrl? && |kind.url| <= 80 ==> r.Success? && r.value.data == kind.url
  {
    var obj := new BarcodeRecord(kind, None, Some(""));
    r := GenerateBarcodeImage(obj, shortUrl);
  }

  // ------------------------------------------------------------- downloads and file names

  const SelectAtLeastOneQr := "Please select at least one QR code to download."
  const SelectExactlyOneQr := "Please select exactly one QR code to download."
  const SelectAtLeastOneBarcode := "Please select at least one barcode to download."
  const SelectExactlyOneBarcode := "Please select exactly one barcode to download."

  /** A selected QR code: its primary key and its class's `verbose_name`. */
  datatype StoredCode = StoredCode(pk: nat, verboseName: string)

  /** What a download action answers: a plain text response, one PNG attachment,
      or a zip archive, with the names of its entries in order. The bytes are not
      modelled. */
  datatype Response =
    | Message(text: string)
    | Attachment(fileName: string)
    | ZipArchive(fileName: string, entries: seq<string>)

  /** `f"{obj.pk}_qr.png"`, the stored QR image's file name. */
  function QrFileName(pk: nat): string {
    NatText(pk) + "_qr.png"
  }

  /** `f"{obj.pk}_barcode.png"`, the stored barcode's file name. */
  function BarcodeFileName(pk: nat): string {
    NatText(pk) + "_barcode.png"
  }

  /** The download name of a QR code in the current package:
      `<verbose_name>_<pk>_qr.png`. */
  function QrDownloadName(code: StoredCode): string {
    code.verboseName + "_" + QrFileName(code.pk)
  }

  lemma QrFileNameInjective(m: nat, n: nat)
    requires QrFileName(m) == QrFileName(n)
    ensures m == n
  {
    var a, b := QrFileName(m), QrFileName(n);
    assert a[..|a| - 7] == NatText(m);
    assert b[..|b| - 7] == NatText(n);
    NatTextInjective(m, n);
  }

  lemma BarcodeFileNameInjective(m: nat, n: nat)
    requires BarcodeFileName(m) == BarcodeFileName(n)
    ensures m == n
  {
    var a, b := BarcodeFileName(m), BarcodeFileName(n);
    assert a[..|a| - 12] == NatText(m);
    assert b[..|b| - 12] == NatText(n);
    NatTextInjective(m, n);
  }

  /** The number of digits at the end of `x`. */
  function TrailingDigits(x: string): (n: nat)
    ensures n <= |x|
    ensures forall i :: |x| - n <= i < |x| ==> IsDigit(x[i])
    ensures n < |x| ==> !IsDigit(x[|x| - n - 1])
  {
    if |x| == 0 || !IsDigit(x[|x| - 1]) then 0 else 1 + TrailingDigits(x[..|x| - 1])
  }

  lemma {:induction false} TrailingDigitsAfterSeparator(v: string, s: string)
    requires forall i :: 0 <= i < |s| ==> IsDigit(s[i])
    ensures TrailingDigits(v + "_" + s) == |s|
    decreases |s|
  {
    var x := v + "_" + s;
    if |s| == 0 {
      assert x[|x| - 1] == '_';
    } else {
      assert x[..|x| - 1] == v + "_" + s[..|s| - 1];
      TrailingDigitsAfterSeparator(v, s[..|s| - 1]);
    }
  }

  /** Two QR codes share a download name only when they have the same class name
      and key: the key is the digits after the last `_` before the suffix. */
  lemma QrDownloadNameInjective(c: StoredCode, d: StoredCode)
    requires QrDownloadName(c) == QrDownloadName(d)
    ensures c == d
  {
    var u, w := c.verboseName + "_" + NatText(c.pk), d.verboseName + "_" + NatText(d.pk);
    assert u == w by {
      assert u == QrDownloadName(c)[..|QrDownloadName(c)| - 7];
      assert w == QrDownloadName(d)[..|QrDownloadName(d)| - 7];
    }
    SeparatedKey(c.verboseName, c.pk);
    SeparatedKey(d.verboseName, d.pk);
    NatTextInjective(c.pk, d.pk);
  }

  /** In `<name>_<pk>` the key is the trailing run of digits, and the name is
      what precedes the `_` before it. */
  lemma SeparatedKey(v: string, n: nat)
    ensures var x, s := v + "_" + NatText(n), NatText(n);
      && TrailingDigits(x) == |s|
      && x[|x| - |s|..] == s
      && x[..|x| - |s| - 1] == v
  {
    var x, s := v + "_" + NatText(n), NatText(n);
    NatTextRoundTrip(n);
    TrailingDigitsAfterSeparator(v, s);
    assert x[|x| - |s|..] == s;
    assert x[..|x| - |s| - 1] == v;
  }

  /** Distinct selected codes give distinct zip entry names. */
  lemma DistinctDownloadNames(selected: seq<StoredCode>)
    requires forall i, j :: 0 <= i < j < |selected| ==> selected[i] != selected[j]
    ensures forall i, j :: 0 <= i < j < |selected| ==> QrDownloadName(selected[i]) != QrDownloadName(selected[j])
  {
    forall i, j | 0 <= i < j < |selected|
      ensures QrDownloadName(selected[i]) != QrDownloadName(selected[j])
    {
      if QrDownloadName(selected[i]) == QrDownloadName(selected[j]) {
        QrDownloadNameInjective(selected[i], selected[j]);
      }
    }
  }

  /** `handle_qr_code` of the current package: a message for an empty selection,
      one attachment for one code, otherwise `Qrcodes.zip` with one entry per
      selected code, in order. */
  method HandleQrCode(selected: seq<StoredCode>) returns (r: Response)
    ensures |selected| == 0 ==> r == Message(SelectAtLeastOneQr)
    ensures |selected| == 1 ==> r == Attachment(QrDownloadName(selected[0]))
    ensures |selected| >= 2 ==>
              && r.ZipArchive? && r.fileName == "Qrcodes.zip" && |r.entries| == |selected|
              && forall i :: 0 <= i < |selected| ==> r.entries[i] == QrDownloadName(selected[i])
  {
    if |selected| == 0 {
      return Message(SelectAtLeastOneQr);
    } else if |selected| == 1 {
      return Attachment(QrDownloadName(selected[0]));
    }
    var entries: seq<string> := [];
    for i := 0 to |selected|
      invariant |entries| == i
      invariant forall j :: 0 <= j < i ==> entries[j] == QrDownloadName(selected[j])
    {
      entries := entries + [QrDownloadName(selected[i])];
    }
    return ZipArchive("Qrcodes.zip", entries);
  }

  /** `download_qr_code`. In the current package it answers as `handle_qr_code`
      and, since that answer is always an `HttpResponse`, always also shows the
      admin notice. In the older package it answers a message unless exactly one
      code is selected, which it sends as `<pk>_qr.png`. */
  method DownloadQrCode(pkg: Package, selected: seq<StoredCode>) returns (r: Response, notice: Option<string>)
    ensures pkg == SageQrcode ==> notice == Some(SelectExactlyOneQr)
    ensures pkg == SageQrcode && |selected| == 0 ==> r == Message(SelectAtLeastOneQr)
    ensures pkg == SageQrcode && |selected| == 1 ==> r == Attachment(QrDownloadName(selected[0]))
    ensures pkg == SageQrcode && |selected| >= 2 ==>
              && r.ZipArchive? && r.fileName == "Qrcodes.zip" && |r.entries| == |selected|
              && forall i :: 0 <= i < |selected| ==> r.entries[i] == QrDownloadName(selected[i])
    ensures pkg == DjangoSageQrcode ==> notice == None
    ensures pkg == DjangoSageQrcode ==>
              (r.Message? <==> |selected| != 1) && (r.Message? ==> r.text == SelectExactlyOneQr)
    ensures pkg == DjangoSageQrcode && |selected| == 1 ==> r == Attachment(QrFileName(selected[0].pk))
  {
    if pkg == SageQrcode {
      r := HandleQrCode(selected);
      notice := Some(SelectExactlyOneQr);
    } else if |selected| != 1 {
      r, notice := Message(SelectExactlyOneQr), None;
    } else {
      r, notice := Attachment(QrFileName(selected[0].pk)), None;
    }
  }

  /** `download_barcode`: in the current package a message for an empty
      selection, one attachment for one barcode, otherwise `Barcodes.zip` with one
      `<pk>_barcode.png` entry per barcode; in the older package a message unless
      exactly one is selected. */
  method DownloadBarcode(pkg: Package, selected: seq<nat>) returns (r: Response)
    ensures |selected| == 1 ==> r == Attachment(BarcodeFileName(selected[0]))
    ensures pkg == SageQrcode && |selected| == 0 ==> r == Message(SelectAtLeastOneBarcode)
    ensures pkg == SageQrcode && |selected| >= 2 ==>
              && r.ZipArchive? && r.fileName == "Barcodes.zip" && |r.entries| == |selected|
              && forall i :: 0 <= i < |selected| ==> r.entries[i] == BarcodeFileName(selected[i])
    ensures pkg == DjangoSageQrcode && |selected| != 1 ==> r == Message(SelectExactlyOneBarcode)
  {
    if |selected| == 1 {
      return Attachment(BarcodeFileName(selected[0]));
    } else if pkg == DjangoSageQrcode {
      return Message(SelectExactlyOneBarcode);
    } else if |selected| == 0 {
      return Message(SelectAtLeastOneBarcode);
    }
    var entries: seq<string> := [];
    for i := 0 to |selected|
      invariant |entries| == i
      invariant forall j :: 0 <= j < i ==> entries[j] == BarcodeFileName(selected[j])
    {
      entries := entries + [BarcodeFileName(selected[i])];
    }
    return ZipArchive("Barcodes.zip", entries);
  }
}
