/** `BarcodeProxy` (`service/barcode.py` of both packages): one optional barcode
    image, `None` until generated; showing or saving raises while it is `None`.
    Long URLs are replaced by a TinyURL before encoding; the network call is left
    out and its answer is a parameter. */
module Barcode {
  import opened Python
  import opened Text
  import opened Images

  const NotGenerated := "Barcode image is not generated."

  /** The shortening test of `generate_barcode`: an `http://` or `https://` prefix
      and more than 80 characters. */
  predicate ShouldShorten(data: string) {
    (StartsWith(data, "http://") || StartsWith(data, "https://")) && |data| > 80
  }

  /** The text actually encoded: the service's short URL when the data qualifies for
      shortening, the data itself otherwise. */
  function Encoded(data: string, shortUrl: string): (r: string)
    ensures ShouldShorten(data) ==> r == shortUrl
    ensures !ShouldShorten(data) ==> r == data
  {
    if ShouldShorten(data) then shortUrl else data
  }

  /** The image `generate_barcode` produces; `scale` is accepted by the method but
      has no parameter here because it is never used. */
  function Rendering(data: string, barcodeType: string, barColor: string, bgColor: string, shortUrl: string): Image {
    BarcodeImage(barcodeType, Encoded(data, shortUrl), barColor, bgColor)
  }

  /** Data of at most 80 characters, and data without an `http(s)://` prefix of any
      length, are encoded as given. */
  lemma KeptAsGiven(data: string, shortUrl: string)
    requires |data| <= 80 || !(StartsWith(data, "http://") || StartsWith(data, "https://"))
    ensures Encoded(data, shortUrl) == data
  {
  }

  /** An 81-character `https://` URL is shortened. */
  lemma LongUrlShortened(host: string, shortUrl: string)
    requires |host| == 73
    ensures Encoded("https://" + host, shortUrl) == shortUrl
  {
    assert ("https://" + host)[..8] == "https://";
  }

  class BarcodeProxy {
    /** `self.barcode_image`. */
    var barcodeImage: Option<Image>
    /** The images written to uniquely named `.png` files by `save_barcode`, oldest
        first. */
    var saved: seq<Image>

    /** `BarcodeProxy()`: no image yet. */
    constructor()
      ensures barcodeImage == None && saved == []
    {
      barcodeImage := None;
      saved := [];
    }

    /** `generate_barcode(data, barcode_type="code128", scale=1, bar_color="black",
        bg_color="white")`: stores the rendering and returns it. */
    method GenerateBarcode(data: string, barcodeType: string, scale: int, barColor: string, bgColor: string,
                           shortUrl: string)
      returns (img: Image)
      modifies this
      ensures img == Rendering(data, barcodeType, barColor, bgColor, shortUrl)
      ensures barcodeImage == Some(img)
      ensures saved == old(saved)
    {
      var text := data;
      if (StartsWith(data, "http://") || StartsWith(data, "https://")) && |data| > 80 {
        text := shortUrl;
      }
      barcodeImage := Some(BarcodeImage(barcodeType, text, barColor, bgColor));
      img := barcodeImage.value;
    }

    /** `save_barcode()`: raises `ValueError` when no image is stored, otherwise
        writes it to a new file. */
    method SaveBarcode() returns (r: Outcome)
      modifies this
      ensures barcodeImage == old(barcodeImage)
      ensures old(barcodeImage).None? ==> r == Fail(ValueError(NotGenerated)) && saved == old(saved)
      ensures old(barcodeImage).Some? ==> r == Pass && saved == old(saved) + [old(barcodeImage).value]
    {
      if barcodeImage.None? {
        return Fail(ValueError(NotGenerated));
      }
      saved := saved + [barcodeImage.value];
      return Pass;
    }

    /** `show_barcode(save)`: raises `ValueError` when no image is stored; otherwise
        saves only when `save` is true and returns the stored image unchanged. */
    method ShowBarcode(save: bool) returns (r: Result<Image>)
      modifies this
      ensures barcodeImage == old(barcodeImage)
      ensures old(barcodeImage).None? ==> r == Failure(ValueError(NotGenerated)) && saved == old(saved)
      ensures old(barcodeImage).Some? ==> r == Success(old(barcodeImage).value)
      ensures old(barcodeImage).Some? ==> saved == old(saved) + (if save then [old(barcodeImage).value] else [])
    {
      if barcodeImage.None? {
        return Failure(ValueError(NotGenerated));
      }
      if save {
        var _ := SaveBarcode();
      }
      return Success(barcodeImage.value);
    }

    /** `create_url(url, save=False, bar_color="black", bg_color="white")`: generate
        a Code 128 barcode, then show it with the caller's `save` flag. */
    method CreateUrl(url: string, save: bool, barColor: string, bgColor: string, shortUrl: string)
      modifies this
      ensures barcodeImage == Some(Rendering(url, "code128", barColor, bgColor, shortUrl))
      ensures saved == old(saved) + (if save then [barcodeImage.value] else [])
    {
      var _ := GenerateBarcode(url, "code128", 1, barColor, bgColor, shortUrl);
      var _ := ShowBarcode(save);
    }

    /** `create_text_barcode(text, save=False, bar_color="black", bg_color="white")`:
        the same steps; a text that is a long URL is shortened too. */
    method CreateTextBarcode(text: string, save: bool, barColor: string, bgColor: string, shortUrl: string)
      modifies this
      ensures barcodeImage == Some(Rendering(text, "code128", barColor, bgColor, shortUrl))
      ensures saved == old(saved) + (if save then [barcodeImage.value] else [])
    {
      var _ := GenerateBarcode(text, "code128", 1, barColor, bgColor, shortUrl);
      var _ := ShowBarcode(save);
    }
  }

  /** A fresh proxy generating with the defaults: the returned image is the stored
      one, a black-on-white Code 128 rendering, and showing it returns it. */
  method GenerateThenShow(data: string, shortUrl: string) returns (generated: Image, shown: Result<Image>)
    ensures generated == BarcodeImage("code128", Encoded(data, shortUrl), "black", "white")
    ensures shown == Success(generated)
  {
    var b := new BarcodeProxy();
    generated := b.GenerateBarcode(data, "code128", 1, "black", "white", shortUrl);
    shown := b.ShowBarcode(false);
  }

  /** Showing on a fresh proxy raises `ValueError`. */
  method ShowWithoutGeneration(save: bool) returns (shown: Result<Image>)
    ensures shown == Failure(ValueError(NotGenerated))
  {
    var b := new BarcodeProxy();
    shown := b.ShowBarcode(save);
  }

  /** Saving on a fresh proxy raises `ValueError`. */
  method SaveWithoutGeneration() returns (r: Outcome)
    ensures r == Fail(ValueError(NotGenerated))
  {
    var b := new BarcodeProxy();
    r := b.SaveBarcode();
  }
}
