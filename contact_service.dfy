/** `ContactQRCode` (`service/contact_qrcode.py` of both packages): Wi-Fi, MECARD
    and vCard codes. The Wi-Fi payload comes from segno's `make_wifi_data`, which
    the model receives as a function. Each generate method lets segno's
    `DataOverflowError` escape, changing nothing, when its payload does not fit. */
module ContactService {
  import opened Python
  import opened Images
  import opened Base
  import opened Payloads
  import opened Finishing

  const WifiCaption := "Scan to open WiFi"
  const MeCardCaption := "Scan to view MeCard"
  const VCardCaption := "Scan to view VCard"

  /** The colours `generate_qr_code` falls back to when the caller passes none. */
  const DefaultLight := "#FFFFFF"
  const DefaultFinder := "#000000"

  /** `generate_wifi_qr_code(ssid, password, security_type="WPA", save=False,
      custom=None, frame_type=None, color="#000000", size=10, color2="#FFFFFF",
      color3="#000000")`: `color2` and `color3` are accepted but not forwarded,
      so the defaults are drawn. */
  method GenerateWifiQrCode(q: QRCodeBase, makeWifiData: (string, string, string) -> string,
                            ssid: string, password: string, securityType: string, save: bool,
                            custom: Option<string>, frame: Option<string>, color: Option<string>,
                            size: int, color2: string, color3: string, backend: Backend)
    returns (r: Outcome)
    modifies q
    ensures !backend.fits ==>
              r == Fail(DataOverflowError) && q.qrImage == old(q.qrImage) && q.saved == old(q.saved)
    ensures backend.fits ==> r == Pass
    ensures backend.fits ==>
              q.qrImage == Some(Decorate(Render(makeWifiData(ssid, password, securityType), size, "h", custom,
                                                color, DefaultLight, DefaultFinder, backend),
                                         frame, CaptionFor(Truthy(custom), WifiCaption)))
    ensures backend.fits ==> q.saved == old(q.saved) + (if save then [q.qrImage.value] else [])
  {
    var wifiData := makeWifiData(ssid, password, securityType);
    var generated := q.GenerateQrCode(wifiData, size, "h", custom, color, DefaultLight, DefaultFinder, backend);
    if generated.Failure? {
      return Fail(generated.error);
    }
    Finish(q, generated.value, frame, WifiCaption, save);
    return Pass;
  }

  /** `generate_mecard_qr_code(name, email=None, phone=None, url=None, save=False,
      custom=None, frame_type=None, size=10, color="#000000", color2="#FFFFFF",
      color3="#000000")`: like Wi-Fi, `color2` and `color3` are not forwarded. */
  method GenerateMeCardQrCode(q: QRCodeBase, name: Option<string>, email: Option<string>,
                              phone: Option<string>, url: Option<string>, save: bool,
                              custom: Option<string>, frame: Option<string>, size: int,
                              color: Option<string>, color2: string, color3: string, backend: Backend)
    returns (r: Outcome)
    modifies q
    ensures !backend.fits ==>
              r == Fail(DataOverflowError) && q.qrImage == old(q.qrImage) && q.saved == old(q.saved)
    ensures backend.fits ==> r == Pass
    ensures backend.fits ==>
              q.qrImage == Some(Decorate(Render(MeCardData(name, email, phone, url), size, "h", custom,
                                                color, DefaultLight, DefaultFinder, backend),
                                         frame, CaptionFor(Truthy(custom), MeCardCaption)))
    ensures backend.fits ==> q.saved == old(q.saved) + (if save then [q.qrImage.value] else [])
  {
    var generated := q.GenerateQrCode(MeCardData(name, email, phone, url), size, "h", custom,
                                      color, DefaultLight, DefaultFinder, backend);
    if generated.Failure? {
      return Fail(generated.error);
    }
    Finish(q, generated.value, frame, MeCardCaption, save);
    return Pass;
  }

  /** `generate_vcard_qr_code(name, displayname=None, email=None, phone=None,
      color="#000000", org=None, url=None, address=None, save=False, size=10,
      custom=None, frame_type=None, color2="#FFFFFF", color3="#000000")`: all
      three colours are forwarded. */
  method GenerateVCardQrCode(q: QRCodeBase, name: Option<string>, displayname: Option<string>,
                             email: Option<string>, phone: Option<string>, color: Option<string>,
                             org: Option<string>, url: Option<string>, address: Option<string>,
                             save: bool, size: int, custom: Option<string>, frame: Option<string>,
                             color2: string, color3: string, backend: Backend)
    returns (r: Outcome)
    modifies q
    ensures !backend.fits ==>
              r == Fail(DataOverflowError) && q.qrImage == old(q.qrImage) && q.saved == old(q.saved)
    ensures backend.fits ==> r == Pass
    ensures backend.fits ==>
              q.qrImage == Some(Decorate(Render(VCardData(name, displayname, email, phone, org, address, url),
                                                size, "h", custom, color, color2, color3, backend),
                                         frame, CaptionFor(Truthy(custom), VCardCaption)))
    ensures backend.fits ==> q.saved == old(q.saved) + (if save then [q.qrImage.value] else [])
  {
    var generated := q.GenerateQrCode(VCardData(name, displayname, email, phone, org, address, url),
                                      size, "h", custom, color, color2, color3, backend);
    if generated.Failure? {
      return Fail(generated.error);
    }
    Finish(q, generated.value, frame, VCardCaption, save);
    return Pass;
  }

  /** Two Wi-Fi codes generated on fresh instances with the same arguments except
      `color2` and `color3` are the same image: those colours never reach the
      rendering, which draws the defaults when segno accepts the colours. Both
      fail alike when the payload does not fit. */
  method WifiIgnoresExtraColors(makeWifiData: (string, string, string) -> string,
                                ssid: string, password: string, custom: Option<string>,
                                frame: Option<string>, color: Option<string>, size: int,
                                color2: string, color3: string, color2': string, color3': string,
                                backend: Backend)
    returns (r: Result<Image>, r': Result<Image>)
    ensures r == r'
    ensures r.Failure? <==> !backend.fits
    ensures r.Failure? ==> r.error == DataOverflowError
    ensures r.Success? ==> SymbolOf(r.value) == Some(Symbol(makeWifiData(ssid, password, "WPA"), "h"))
    ensures r.Success? && !Truthy(custom) && backend.acceptsColors ==>
              PaletteOf(r.value) == Some(Palette(color, DefaultLight, DefaultFinder))
    ensures r.Success? ==> (r.value.Captioned? <==> !Truthy(custom))
  {
    var q := new QRCodeBase();
    var outcome := GenerateWifiQrCode(q, makeWifiData, ssid, password, "WPA", false, custom, frame, color,
                                      size, color2, color3, backend);
    var q' := new QRCodeBase();
    var outcome' := GenerateWifiQrCode(q', makeWifiData, ssid, password, "WPA", false, custom, frame, color,
                                       size, color2', color3', backend);
    if outcome.Fail? {
      return Failure(outcome.error), Failure(outcome'.error);
    }
    r, r' := Success(q.qrImage.value), Success(q'.qrImage.value);
    var data := makeWifiData(ssid, password, "WPA");
    RenderSymbol(data, size, "h", custom, color, DefaultLight, DefaultFinder, backend,
                 frame, CaptionFor(Truthy(custom), WifiCaption));
    CaptionIffPlain(Render(data, size, "h", custom, color, DefaultLight, DefaultFinder, backend),
                    Truthy(custom), frame, WifiCaption);
  }

  /** The same holds for MECARD codes. */
  method MeCardIgnoresExtraColors(name: Option<string>, email: Option<string>, phone: Option<string>,
                                  url: Option<string>, custom: Option<string>, frame: Option<string>,
                                  size: int, color: Option<string>, color2: string, color3: string,
                                  color2': string, color3': string, backend: Backend)
    returns (r: Result<Image>, r': Result<Image>)
    ensures r == r'
    ensures r.Failure? <==> !backend.fits
    ensures r.Failure? ==> r.error == DataOverflowError
    ensures r.Success? ==> SymbolOf(r.value) == Some(Symbol(MeCardData(name, email, phone, url), "h"))
    ensures r.Success? && !Truthy(custom) && backend.acceptsColors ==>
              PaletteOf(r.value) == Some(Palette(color, DefaultLight, DefaultFinder))
    ensures r.Success? ==> (r.value.Captioned? <==> !Truthy(custom))
  {
    var q := new QRCodeBase();
    var outcome := GenerateMeCardQrCode(q, name, email, phone, url, false, custom, frame, size, color,
                                        color2, color3, backend);
    var q' := new QRCodeBase();
    var outcome' := GenerateMeCardQrCode(q', name, email, phone, url, false, custom, frame, size, color,
                                         color2', color3', backend);
    if outcome.Fail? {
      return Failure(outcome.error), Failure(outcome'.error);
    }
    r, r' := Success(q.qrImage.value), Success(q'.qrImage.value);
    var data := MeCardData(name, email, phone, url);
    RenderSymbol(data, size, "h", custom, color, DefaultLight, DefaultFinder, backend,
                 frame, CaptionFor(Truthy(custom), MeCardCaption));
    CaptionIffPlain(Render(data, size, "h", custom, color, DefaultLight, DefaultFinder, backend),
                    Truthy(custom), frame, MeCardCaption);
  }

  /** A vCard code does draw the caller's three colours (when no custom image is
      given and segno accepts them), and encodes the ten-line card, unless the card
      does not fit. */
  method VCardForwardsColors(name: Option<string>, displayname: Option<string>, email: Option<string>,
                             phone: Option<string>, org: Option<string>, url: Option<string>,
                             address: Option<string>, custom: Option<string>, frame: Option<string>,
                             size: int, color: Option<string>, color2: string, color3: string,
                             backend: Backend)
    returns (r: Result<Image>)
    ensures r.Failure? <==> !backend.fits
    ensures r.Failure? ==> r.error == DataOverflowError
    ensures r.Success? ==>
              SymbolOf(r.value) == Some(Symbol(VCardData(name, displayname, email, phone, org, address, url), "h"))
    ensures r.Success? && !Truthy(custom) && backend.acceptsColors ==>
              PaletteOf(r.value) == Some(Palette(color, color2, color3))
    ensures r.Success? ==> (r.value.Captioned? <==> !Truthy(custom))
  {
    var q := new QRCodeBase();
    var outcome := GenerateVCardQrCode(q, name, displayname, email, phone, color, org, url, address, false,
                                       size, custom, frame, color2, color3, backend);
    if outcome.Fail? {
      return Failure(outcome.error);
    }
    r := Success(q.qrImage.value);
    var data := VCardData(name, displayname, email, phone, org, address, url);
    RenderSymbol(data, size, "h", custom, color, color2, color3, backend,
                 frame, CaptionFor(Truthy(custom), VCardCaption));
    CaptionIffPlain(Render(data, size, "h", custom, color, color2, color3, backend),
                    Truthy(custom), frame, VCardCaption);
  }
}
