/** Images as symbolic terms. Rendering and compositing are done by foreign
    libraries (segno, PIL, python-barcode); each constructor of `Image` stands for
    the result of one such call on its arguments, so two images are equal exactly
    when they were produced by the same calls on the same arguments. */
module Images {
  import opened Python

  /** `segno.make(data, error=error)`: a QR symbol and its error-correction level. */
  datatype Symbol = Symbol(data: string, error: string)

  /** The three colours passed to `to_pil`: dark modules, light modules, finder
      patterns. Only the dark colour can reach segno as `None` (an admin object
      whose colour field is empty). */
  datatype Palette = Palette(dark: Option<string>, light: string, finderDark: string)

  datatype Image =
      /** `symbol.to_pil(scale=…)` with the given colours, or with segno's default
          colours (`None`); `mode` is the PIL mode segno chose. */
    | Raster(symbol: Symbol, scale: int, palette: Option<Palette>, mode: string)
      /** `symbol.to_artistic(background=path, scale=…)`, read back with `Image.open`. */
    | Artistic(symbol: Symbol, background: string, scale: int)
      /** `image.convert(mode)`. */
    | Converted(source: Image, mode: string)
      /** `add_frame_to_image(image, frame_type)`. */
    | Framed(source: Image, frameType: string)
      /** `add_text_to_image(image, text)`. */
    | Captioned(source: Image, text: string)
      /** `add_icon_to_image(image, icon_path)`. */
    | WithIcon(source: Image, iconPath: string)
      /** A python-barcode `ImageWriter` rendering, read back with `Image.open`. */
    | BarcodeImage(barcodeType: string, data: string, foreground: string, background: string)

  /** What the foreign rendering calls decide: whether `segno.make` can encode the
      data at the error level in some QR code version (otherwise it raises
      `DataOverflowError`), whether segno accepts the colours (otherwise `to_pil`
      raises `ValueError`), and the PIL mode of its raster. */
  datatype Backend = Backend(fits: bool, acceptsColors: bool, rasterMode: string)

  /** The PIL mode of an image, where the code determines it. The frame helper
      converts to RGBA before drawing; text and icons are drawn in place. The mode
      of an image read back from a file is not known to the model. */
  function Mode(img: Image): Option<string> {
    match img
    case Raster(_, _, _, mode) => Some(mode)
    case Converted(_, mode) => Some(mode)
    case Framed(_, _) => Some("RGBA")
    case Captioned(source, _) => Mode(source)
    case WithIcon(source, _) => Mode(source)
    case Artistic(_, _, _) => None
    case BarcodeImage(_, _, _, _) => None
  }

  /** `customize_qr_code(qr_code, path, scale)`: the artistic rendering always uses
      scale 8, whatever `scale` says. */
  function Customize(symbol: Symbol, path: string, scale: int): Image {
    Artistic(symbol, path, 8)
  }

  /** The `scale` argument of `customize_qr_code` has no effect: any two scales give
      the same artistic image of the symbol on the given background, drawn at 8. */
  lemma CustomizeIgnoresScale(symbol: Symbol, path: string, scale: int, scale': int)
    ensures Customize(symbol, path, scale) == Customize(symbol, path, scale')
    ensures SymbolOf(Customize(symbol, path, scale)) == Some(symbol)
    ensures Customize(symbol, path, scale).background == path && Customize(symbol, path, scale).scale == 8
  {
  }

  /** The image `QRCodeBase.generate_qr_code` stores when `segno.make` succeeds:
      the artistic rendering when a custom path is given; otherwise the raster in
      the requested colours (or the default colours when segno rejects them),
      converted to RGBA unless it already is. */
  function Render(data: string, scale: int, error: string, custom: Option<string>,
                  color: Option<string>, color2: string, color3: string, backend: Backend): Image
  {
    var symbol := Symbol(data, error);
    if Truthy(custom) then Customize(symbol, custom.value, 10)
    else
      var palette := if backend.acceptsColors then Some(Palette(color, color2, color3)) else None;
      var raster := Raster(symbol, scale, palette, backend.rasterMode);
      if backend.rasterMode != "RGBA" then Converted(raster, "RGBA") else raster
  }

  /** The image under all frame, caption and icon layers. */
  function Core(img: Image): Image {
    match img
    case Framed(source, _) => Core(source)
    case Captioned(source, _) => Core(source)
    case WithIcon(source, _) => Core(source)
    case _ => img
  }

  /** The QR symbol an image shows, through every layer drawn on it. */
  function SymbolOf(img: Image): Option<Symbol> {
    match img
    case Raster(symbol, _, _, _) => Some(symbol)
    case Artistic(symbol, _, _) => Some(symbol)
    case Converted(source, _) => SymbolOf(source)
    case Framed(source, _) => SymbolOf(source)
    case Captioned(source, _) => SymbolOf(source)
    case WithIcon(source, _) => SymbolOf(source)
    case BarcodeImage(_, _, _, _) => None
  }

  /** The colours of the raster under every layer, when it is a raster drawn in
      requested colours. */
  function PaletteOf(img: Image): Option<Palette> {
    match img
    case Raster(_, _, palette, _) => palette
    case Converted(source, _) => PaletteOf(source)
    case Framed(source, _) => PaletteOf(source)
    case Captioned(source, _) => PaletteOf(source)
    case WithIcon(source, _) => PaletteOf(source)
    case _ => None
  }

  /** Whatever is drawn on top, the rendered image shows the symbol of the data at
      the requested error level, and (without a custom path, when segno accepts
      them) the requested colours. */
  lemma RenderSymbol(data: string, scale: int, error: string, custom: Option<string>,
                     color: Option<string>, color2: string, color3: string, backend: Backend,
                     frame: Option<string>, caption: Option<string>)
    ensures var img := Decorate(Render(data, scale, error, custom, color, color2, color3, backend), frame, caption);
      && SymbolOf(img) == Some(Symbol(data, error))
      && PaletteOf(img) == (if !Truthy(custom) && backend.acceptsColors then Some(Palette(color, color2, color3)) else None)
  {
    var rendered := Render(data, scale, error, custom, color, color2, color3, backend);
    var framed := if Truthy(frame) then Framed(rendered, frame.value) else rendered;
    if !Truthy(custom) {
      RenderPlain(data, scale, error, custom, color, color2, color3, backend);
    }
    assert SymbolOf(rendered) == Some(Symbol(data, error));
    assert PaletteOf(rendered) == (if !Truthy(custom) && backend.acceptsColors then Some(Palette(color, color2, color3)) else None) by {
      if !Truthy(custom) && rendered.Converted? {
        assert PaletteOf(rendered) == PaletteOf(rendered.source);
      }
    }
    assert SymbolOf(framed) == SymbolOf(rendered) && PaletteOf(framed) == PaletteOf(rendered);
  }

  /** Without a custom path the stored image is RGBA and encodes the data at the
      requested scale and error level, in the requested colours when segno accepts
      them and in its default colours otherwise (no error escapes). */
  lemma RenderPlain(data: string, scale: int, error: string, custom: Option<string>,
                    color: Option<string>, color2: string, color3: string, backend: Backend)
    requires !Truthy(custom)
    ensures var img := Render(data, scale, error, custom, color, color2, color3, backend);
      && Mode(img) == Some("RGBA")
      && Core(img) == img
      && (img.Converted? ==> img.source.Raster?)
      && var raster := if img.Converted? then img.source else img;
      && raster.Raster? && raster.symbol == Symbol(data, error) && raster.scale == scale
      && raster.palette == (if backend.acceptsColors then Some(Palette(color, color2, color3)) else None)
  {
  }

  /** With a custom path the stored image is the artistic rendering of the data on
      that background; the scale, the colours and segno's colour check play no
      part. */
  lemma RenderCustom(data: string, scale: int, error: string, custom: Option<string>,
                     color: Option<string>, color2: string, color3: string, backend: Backend,
                     scale': int, color': Option<string>, color2': string, color3': string, backend': Backend)
    requires Truthy(custom)
    ensures Render(data, scale, error, custom, color, color2, color3, backend)
         == Render(data, scale', error, custom, color', color2', color3', backend')
    ensures Render(data, scale, error, custom, color, color2, color3, backend).Artistic?
    ensures Render(data, scale, error, custom, color, color2, color3, backend).scale == 8
  {
  }

  /** The decorations the services apply after generation, in their order: a frame
      when `frame_type` is truthy, then the caption when one is due. */
  function Decorate(img: Image, frame: Option<string>, caption: Option<string>): Image {
    var framed := if Truthy(frame) then Framed(img, frame.value) else img;
    if caption.Some? then Captioned(framed, caption.value) else framed
  }

  /** Decorating never changes the image underneath; the caption, when present, is
      the outermost layer and the frame lies under it; a falsy frame type (`None`
      or `""`) adds no frame. */
  lemma DecorateLayers(img: Image, frame: Option<string>, caption: Option<string>)
    ensures Core(Decorate(img, frame, caption)) == Core(img)
    ensures caption.Some? ==> Decorate(img, frame, caption) == Captioned(Decorate(img, frame, None), caption.value)
    ensures caption.Some? && Truthy(frame) ==>
              Decorate(img, frame, caption) == Captioned(Framed(img, frame.value), caption.value)
    ensures !Truthy(frame) ==> Decorate(img, frame, caption) == Decorate(img, None, caption)
    ensures Decorate(img, None, None) == img
  {
  }
}
