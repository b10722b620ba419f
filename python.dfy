/** Python values and exceptions that the QR code package passes around.

    `None` is `Option.None`; a raised exception is the `Failure` arm of a `Result`
    (or `Outcome` for a call whose normal return value is `None`). */
module Python {

  datatype Option<+T> = None | Some(value: T)

  /** The exceptions the modelled code raises. */
  datatype Exception =
    | ValueError(message: string)
    | TypeError(message: string)
    | AttributeError(message: string)
      /** segno's `DataOverflowError` (a `ValueError`): the data does not fit in
          any QR code version at the requested error level. */
    | DataOverflowError

  /** The result of a call that returns a value or raises. */
  datatype Result<+T> = Success(value: T) | Failure(error: Exception)

  /** The result of a call that returns `None` or raises. */
  datatype Outcome = Pass | Fail(error: Exception)

  /** Python truthiness of an optional string: `None` and `""` are false. */
  predicate Truthy(s: Option<string>) {
    s.Some? && s.value != ""
  }

  /** Python truthiness of an optional integer: `None` and `0` are false. */
  predicate TruthyInt(n: Option<int>) {
    n.Some? && n.value != 0
  }

  /** What an f-string prints for an `Optional[str]`: the text itself, or `None`. */
  function Format(s: Option<string>): (r: string)
    ensures s.None? ==> r == "None"
    ensures s.Some? ==> r == s.value
  {
    match s
    case None => "None"
    case Some(v) => v
  }
}
