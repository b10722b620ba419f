/** The steps every generate method of the payment and contact services ends
    with (`service/payment_qrcode.py` and `service/contact_qrcode.py` of both
    packages): a frame when `frame_type` is truthy, then the service's caption
    when `generate_qr_code` returned False, then `show_qr_code(save)`. */
module Finishing {
  import opened Python
  import opened Images
  import opened Base

  /** The caption due after generation: none when a custom image was used. */
  function CaptionFor(customized: bool, caption: string): Option<string> {
    if customized then None else Some(caption)
  }

  method Finish(q: QRCodeBase, customized: bool, frame: Option<string>, caption: string, save: bool)
    requires q.qrImage.Some?
    modifies q
    ensures q.qrImage == Some(Decorate(old(q.qrImage).value, frame, CaptionFor(customized, caption)))
    ensures q.saved == old(q.saved) + (if save then [q.qrImage.value] else [])
  {
    if Truthy(frame) {
      q.qrImage := Some(Framed(q.qrImage.value, frame.value));
    }
    if !customized {
      q.qrImage := Some(Captioned(q.qrImage.value, caption));
    }
    var _ := q.ShowQrCode(save);
  }

  /** The caption is the outermost layer exactly when no custom image was used,
      and the frame, when given, lies directly under it. */
  lemma CaptionIffPlain(img: Image, customized: bool, frame: Option<string>, caption: string)
    requires !img.Captioned?
    ensures var d := Decorate(img, frame, CaptionFor(customized, caption));
      && (d.Captioned? <==> !customized)
      && (d.Captioned? ==> d.text == caption && d.source == Decorate(img, frame, None))
      && (Truthy(frame) ==> (if customized then d else d.source) == Framed(img, frame.value))
  {
  }
}
