/** `QRCodeBase` (`service/base.py` of both packages): one optional image field,
    `None` until a QR code is generated; showing or saving raises while it is
    `None`. The service classes of both packages inherit from it without adding
    state. */
module Base {
  import opened Python
  import opened Images

  const NotGenerated := "QR code image is not generated."

  class QRCodeBase {
    /** `self.qr_image`. */
    var qrImage: Option<Image>
    /** The images written to uniquely named `.png` files by `save_qr_code`, oldest
        first (the file names come from `uuid4` and are not modelled). */
    var saved: seq<Image>

    /** `QRCodeBase()`: no image yet. */
    constructor()
      ensures qrImage == None && saved == []
    {
      qrImage := None;
      saved := [];
    }

    /** `generate_qr_code(data, scale=10, error="h", custom=None, color, color2,
        color3)`: raises `DataOverflowError` from `segno.make`, storing nothing, when
        the data does not fit; otherwise stores the rendering of `data` and returns
        True iff a custom path was given. */
    method GenerateQrCode(data: string, scale: int, error: string, custom: Option<string>,
                          color: Option<string>, color2: string, color3: string, backend: Backend)
      returns (r: Result<bool>)
      modifies this
      ensures !backend.fits ==> r == Failure(DataOverflowError) && qrImage == old(qrImage)
      ensures backend.fits ==> r == Success(Truthy(custom))
      ensures backend.fits ==> qrImage == Some(Render(data, scale, error, custom, color, color2, color3, backend))
      ensures saved == old(saved)
    {
      if !backend.fits {
        return Failure(DataOverflowError);
      }
      var symbol := Symbol(data, error);
      if Truthy(custom) {
        qrImage := Some(Customize(symbol, custom.value, 10));
        return Success(true);
      }
      if backend.acceptsColors {
        qrImage := Some(Raster(symbol, scale, Some(Palette(color, color2, color3)), backend.rasterMode));
      } else {
        qrImage := Some(Raster(symbol, scale, None, backend.rasterMode));
      }
      if Mode(qrImage.value) != Some("RGBA") {
        qrImage := Some(Converted(qrImage.value, "RGBA"));
      }
      return Success(false);
    }

    /** `save_qr_code()`: raises `ValueError` when no image is stored, otherwise writes
        the stored image to a new file. */
    method SaveQrCode() returns (r: Outcome)
      modifies this
      ensures qrImage == old(qrImage)
      ensures old(qrImage).None? ==> r == Fail(ValueError(NotGenerated)) && saved == old(saved)
      ensures old(qrImage).Some? ==> r == Pass && saved == old(saved) + [old(qrImage).value]
    {
      if qrImage.None? {
        return Fail(ValueError(NotGenerated));
      }
      saved := saved + [qrImage.value];
      return Pass;
    }

    /** `show_qr_code(save=False)`: raises `ValueError` when no image is stored;
        otherwise saves first when `save` is true, and returns the stored image
        unchanged. */
    method ShowQrCode(save: bool) returns (r: Result<Image>)
      modifies this
      ensures qrImage == old(qrImage)
      ensures old(qrImage).None? ==> r == Failure(ValueError(NotGenerated)) && saved == old(saved)
      ensures old(qrImage).Some? ==> r == Success(old(qrImage).value)
      ensures old(qrImage).Some? ==> saved == old(saved) + (if save then [old(qrImage).value] else [])
    {
      if qrImage.None? {
        return Failure(ValueError(NotGenerated));
      }
      if save {
        var _ := SaveQrCode();
      }
      return Success(qrImage.value);
    }
  }

  /** A fresh instance generating with the defaults (`generate_qr_code(data)`) and
      then showing: when the data fits, the result is False and the image shown is
      the RGBA raster of the data at scale 10 and error level `h`; otherwise the
      `DataOverflowError` of generation escapes before anything is shown. */
  method GenerateThenShow(data: string, backend: Backend) returns (generated: Result<bool>, shown: Result<Image>)
    ensures backend.fits ==> generated == Success(false)
    ensures backend.fits ==> shown == Success(Render(data, 10, "h", None, Some("#000000"), "#FFFFFF", "#000000", backend))
    ensures backend.fits ==> Mode(shown.value) == Some("RGBA")
    ensures !backend.fits ==> generated == Failure(DataOverflowError) && shown == Failure(DataOverflowError)
  {
    var q := new QRCodeBase();
    generated := q.GenerateQrCode(data, 10, "h", None, Some("#000000"), "#FFFFFF", "#000000", backend);
    if generated.Failure? {
      return generated, Failure(generated.error);
    }
    shown := q.ShowQrCode(false);
    RenderPlain(data, 10, "h", None, Some("#000000"), "#FFFFFF", "#000000", backend);
  }

  /** Showing on a fresh instance raises `ValueError`. */
  method ShowWithoutGeneration(save: bool) returns (shown: Result<Image>)
    ensures shown == Failure(ValueError(NotGenerated))
  {
    var q := new QRCodeBase();
    shown := q.ShowQrCode(save);
  }

  /** Saving on a fresh instance raises `ValueError`. */
  method SaveWithoutGeneration() returns (r: Outcome)
    ensures r == Fail(ValueError(NotGenerated))
  {
    var q := new QRCodeBase();
    r := q.SaveQrCode();
  }
}
