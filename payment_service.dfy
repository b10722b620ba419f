/** `PaymentQRCode` (`service/payment_qrcode.py` of both packages): the EPC and
    Bitcoin payment codes. The `frame_type` argument of the current package is
    called `frame` in the older one; the behaviour is the same. */
module PaymentService {
  import opened Python
  import opened Images
  import opened Base
  import opened Payloads
  import opened Finishing

  const EpcCaption := "Scan for EPC payment"
  const BitcoinCaption := "Scan for bitcoin payment"

  /** `generate_epc_qr_code(name, iban, amount, text="", save=False, custom=None,
      frame_type=None, color="#000000", size=10, color2="#FFFFFF",
      color3="#000000")`: all three colours and the custom path are forwarded. When
      the data does not fit, the `DataOverflowError` of generation escapes and
      nothing changes. */
  method GenerateEpcQrCode(q: QRCodeBase, name: string, iban: string, amount: Amount, text: string,
                           save: bool, custom: Option<string>, frame: Option<string>,
                           color: Option<string>, size: int, color2: string, color3: string,
                           backend: Backend)
    returns (r: Outcome)
    modifies q
    ensures !backend.fits ==>
              r == Fail(DataOverflowError) && q.qrImage == old(q.qrImage) && q.saved == old(q.saved)
    ensures backend.fits ==> r == Pass
    ensures backend.fits ==>
              q.qrImage == Some(Decorate(Render(EpcData(name, iban, amount, text), size, "h", custom,
                                                color, color2, color3, backend),
                                         frame, CaptionFor(Truthy(custom), EpcCaption)))
    ensures backend.fits ==> q.saved == old(q.saved) + (if save then [q.qrImage.value] else [])
  {
    var generated := q.GenerateQrCode(EpcData(name, iban, amount, text), size, "h", custom,
                                      color, color2, color3, backend);
    if generated.Failure? {
      return Fail(generated.error);
    }
    Finish(q, generated.value, frame, EpcCaption, save);
    return Pass;
  }

  /** `generate_bitcoin_qr_code(address, amount=None, label=None, save=False,
      message=None, scale=10, color="#000000", frame_type=None, color2="#FFFFFF",
      color3="#000000")`: no custom path is ever passed. When the URI does not fit,
      the `DataOverflowError` of generation escapes and nothing changes. */
  method GenerateBitcoinQrCode(q: QRCodeBase, address: string, amount: Option<Amount>,
                               labelText: Option<string>, save: bool, message: Option<string>,
                               scale: int, color: Option<string>, frame: Option<string>,
                               color2: string, color3: string, backend: Backend)
    returns (r: Outcome)
    modifies q
    ensures !backend.fits ==>
              r == Fail(DataOverflowError) && q.qrImage == old(q.qrImage) && q.saved == old(q.saved)
    ensures backend.fits ==> r == Pass
    ensures backend.fits ==>
              q.qrImage == Some(Decorate(Render(BitcoinUri(address, amount, labelText, message), scale, "h",
                                                None, color, color2, color3, backend),
                                         frame, Some(BitcoinCaption)))
    ensures backend.fits ==> q.saved == old(q.saved) + (if save then [q.qrImage.value] else [])
  {
    var generated := q.GenerateQrCode(BitcoinUri(address, amount, labelText, message), scale, "h", None,
                                      color, color2, color3, backend);
    if generated.Failure? {
      return Fail(generated.error);
    }
    Finish(q, generated.value, frame, BitcoinCaption, save);
    return Pass;
  }

  /** An EPC code generated on a fresh instance fails exactly when the block does
      not fit, and then saves nothing. Otherwise it encodes the EPC block at error
      level `h`; it carries the caption exactly when no custom image was given,
      with the frame (when truthy) directly under the caption; and it is saved
      exactly when `save` is true. */
  method EpcOnFreshInstance(name: string, iban: string, amount: Amount, text: string, save: bool,
                            custom: Option<string>, frame: Option<string>, color: Option<string>,
                            size: int, color2: string, color3: string, backend: Backend)
    returns (r: Result<Image>, saved: seq<Image>)
    ensures r.Failure? <==> !backend.fits
    ensures r.Failure? ==> r.error == DataOverflowError && saved == []
    ensures r.Success? ==> SymbolOf(r.value) == Some(Symbol(EpcData(name, iban, amount, text), "h"))
    ensures r.Success? ==> (r.value.Captioned? <==> !Truthy(custom))
    ensures r.Success? && r.value.Captioned? ==> r.value.text == EpcCaption
    ensures r.Success? && Truthy(frame) ==> (if r.value.Captioned? then r.value.source else r.value).Framed?
    ensures r.Success? ==> saved == (if save then [r.value] else [])
  {
    var q := new QRCodeBase();
    var outcome := GenerateEpcQrCode(q, name, iban, amount, text, save, custom, frame, color, size,
                                     color2, color3, backend);
    saved := q.saved;
    if outcome.Fail? {
      return Failure(outcome.error), saved;
    }
    r := Success(q.qrImage.value);
    var rendered := Render(EpcData(name, iban, amount, text), size, "h", custom, color, color2, color3, backend);
    RenderSymbol(EpcData(name, iban, amount, text), size, "h", custom, color, color2, color3, backend,
                 frame, CaptionFor(Truthy(custom), EpcCaption));
    CaptionIffPlain(rendered, Truthy(custom), frame, EpcCaption);
  }

  /** A Bitcoin code generated on a fresh instance fails exactly when the URI does
      not fit. Otherwise it carries the caption, over the frame when one is given,
      and encodes the `bitcoin:` URI; with every optional parameter `None` that URI
      is the bare address form. */
  method BitcoinOnFreshInstance(address: string, amount: Option<Amount>, labelText: Option<string>,
                                message: Option<string>, frame: Option<string>, backend: Backend)
    returns (r: Result<Image>)
    ensures r.Failure? <==> !backend.fits
    ensures r.Failure? ==> r.error == DataOverflowError
    ensures r.Success? ==> r.value.Captioned? && r.value.text == BitcoinCaption
    ensures r.Success? ==> (Truthy(frame) <==> r.value.source.Framed?)
    ensures r.Success? ==> SymbolOf(r.value) == Some(Symbol(BitcoinUri(address, amount, labelText, message), "h"))
    ensures r.Success? && amount.None? && labelText.None? && message.None? ==>
              SymbolOf(r.value) == Some(Symbol("bitcoin:" + address, "h"))
  {
    var q := new QRCodeBase();
    var outcome := GenerateBitcoinQrCode(q, address, amount, labelText, false, message, 10, Some("#000000"),
                                         frame, "#FFFFFF", "#000000", backend);
    if outcome.Fail? {
      return Failure(outcome.error);
    }
    r := Success(q.qrImage.value);
    var data := BitcoinUri(address, amount, labelText, message);
    var rendered := Render(data, 10, "h", None, Some("#000000"), "#FFFFFF", "#000000", backend);
    RenderSymbol(data, 10, "h", None, Some("#000000"), "#FFFFFF", "#000000", backend, frame, Some(BitcoinCaption));
    RenderPlain(data, 10, "h", None, Some("#000000"), "#FFFFFF", "#000000", backend);
    BitcoinQuery(address, amount, labelText, message);
  }
}
