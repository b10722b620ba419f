/** `SizeValidator` and `ImageFileValidator`
    (`django_sage_qrcode/helpers/validators/image.py`). Reading the image's
    dimensions is a call into Django's image library; the model receives its outcome
    as a parameter. */
module ImageValidators {
  import opened Python
  import opened Text
  import opened Validation

  /** A `SizeValidator` instance; `__eq__` compares class, message, code and both
      bounds. */
  datatype SizeValidator = SizeValidator(config: Config, minValue: int, maxValue: int)

  const SizeMessage := "Size must be between 1 and 1000."

  /** `SizeValidator(message=None, code=None, min_value=None, max_value=None)`: every
      argument that is not `None` replaces the class default. */
  function NewSize(message: Option<string>, code: Option<string>,
                   minValue: Option<int>, maxValue: Option<int>): (v: SizeValidator)
    ensures v.config.message == (if message.Some? then message.value else SizeMessage)
    ensures v.config.code == (if code.Some? then code.value else "invalid")
    ensures v.minValue == (if minValue.Some? then minValue.value else 1)
    ensures v.maxValue == (if maxValue.Some? then maxValue.value else 1000)
  {
    SizeValidator(Configure(Config(SizeMessage, "invalid"), message, code),
                  if minValue.Some? then minValue.value else 1,
                  if maxValue.Some? then maxValue.value else 1000)
  }

  /** The module-level instance `validate_size`. */
  function ValidateSize(): SizeValidator { NewSize(None, None, None, None) }

  /** `SizeValidator.__call__`: `None` passes; a number passes iff it lies within
      the inclusive bounds. */
  function CallSize(v: SizeValidator, value: Option<int>): (r: Check<int>)
    ensures r.Accepted? <==> value.None? || v.minValue <= value.value <= v.maxValue
    ensures r.Rejected? ==> r.error == ValidationError(v.config.message, v.config.code, map["value" := value.value])
  {
    if value.Some? && (value.value < v.minValue || value.value > v.maxValue) then
      Rejected(Reject(v.config, map["value" := value.value]))
    else
      Accepted
  }

  /** Validators that differ in a bound are not equal, even with the same message
      and code, and one of them accepts a size the other rejects. */
  lemma BoundsDistinguish(v: SizeValidator, w: SizeValidator)
    requires v.config == w.config && v.minValue <= v.maxValue && w.minValue <= w.maxValue
    requires v != w
    ensures exists n :: CallSize(v, Some(n)).Accepted? != CallSize(w, Some(n)).Accepted?
  {
    if v.minValue != w.minValue {
      var n := if v.minValue < w.minValue then v.minValue else w.minValue;
      assert CallSize(v, Some(n)).Accepted? != CallSize(w, Some(n)).Accepted?;
    } else {
      var n := if v.maxValue < w.maxValue then w.maxValue else v.maxValue;
      assert CallSize(v, Some(n)).Accepted? != CallSize(w, Some(n)).Accepted?;
    }
  }

  /** An `ImageFileValidator` instance; `__eq__` compares class, message, code and
      `max_size`. */
  datatype ImageFileValidator = ImageFileValidator(config: Config, maxSize: Option<int>)

  const ImageMessage := "Upload a valid image file."

  /** `ImageFileValidator(message=None, code=None, max_size=None)`. */
  function NewImageFile(message: Option<string>, code: Option<string>, maxSize: Option<int>): (v: ImageFileValidator)
    ensures v.config.message == (if message.Some? then message.value else ImageMessage)
    ensures v.config.code == (if code.Some? then code.value else "invalid")
    ensures v.maxSize == maxSize
  {
    ImageFileValidator(Configure(Config(ImageMessage, "invalid"), message, code), maxSize)
  }

  /** The module-level instance `validate_image_file`. */
  function ValidateImageFile(): ImageFileValidator { NewImageFile(None, None, None) }

  /** An uploaded file as the validator sees it: its size in bytes, and whether
      `get_image_dimensions` raised on it (it returns `(None, None)`, without
      raising, for most data it cannot parse). */
  datatype Upload = Upload(size: int, dimensionsRaise: bool)

  /** The message of the size error, `"File size should be under %(max_size)d bytes."`
      filled in. */
  function SizeLimitMessage(maxSize: int): string {
    "File size should be under " + IntText(maxSize) + " bytes."
  }

  /** `ImageFileValidator.__call__`: a failure of the dimension reading raises with
      the configured message; otherwise a file strictly larger than a truthy
      `max_size` raises with the size message; the configured code is used in both,
      without `params`. */
  function CallImageFile(v: ImageFileValidator, file: Upload): (r: Check<int>)
    ensures r.Accepted? <==> !file.dimensionsRaise && !(TruthyInt(v.maxSize) && file.size > v.maxSize.value)
    ensures file.dimensionsRaise ==> r == Rejected(ValidationError(v.config.message, v.config.code, map[]))
    ensures !file.dimensionsRaise && r.Rejected? ==>
              r.error == ValidationError(SizeLimitMessage(v.maxSize.value), v.config.code, map[])
  {
    if file.dimensionsRaise then
      Rejected(Reject(v.config, map[]))
    else if TruthyInt(v.maxSize) && file.size > v.maxSize.value then
      Rejected(ValidationError(SizeLimitMessage(v.maxSize.value), v.config.code, map[]))
    else
      Accepted
  }

  /** A `max_size` of `None` or `0` sets no limit at all. */
  lemma FalsyMaxSizeNoLimit(v: ImageFileValidator, file: Upload)
    requires !TruthyInt(v.maxSize) && !file.dimensionsRaise
    ensures CallImageFile(v, file).Accepted?
  {
  }
}
