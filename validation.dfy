/** Django's `ValidationError` and the `message`/`code` configuration that every
    validator class of the package shares. */
module Validation {
  import opened Python

  /** A raised `ValidationError`: its message, its code and its `params` dictionary. */
  datatype ValidationError<P> = ValidationError(message: string, code: string, params: map<string, P>)

  /** What calling a validator does: return `None`, or raise a `ValidationError`. */
  datatype Check<P> = Accepted | Rejected(error: ValidationError<P>)

  /** The `message` and `code` attributes of a validator instance. */
  datatype Config = Config(message: string, code: string)

  /** `__init__(message=None, code=None)`: each argument that is not `None` replaces
      the class attribute of the same name; a `None` argument keeps the class value. */
  function Configure(defaults: Config, message: Option<string>, code: Option<string>): (c: Config)
    ensures message.Some? ==> c.message == message.value
    ensures message.None? ==> c.message == defaults.message
    ensures code.Some? ==> c.code == code.value
    ensures code.None? ==> c.code == defaults.code
  {
    Config(if message.Some? then message.value else defaults.message,
           if code.Some? then code.value else defaults.code)
  }

  /** The error a validator raises: its configured message and code, with `params`. */
  function Reject<P>(c: Config, params: map<string, P>): (e: ValidationError<P>)
    ensures e.message == c.message && e.code == c.code && e.params == params
  {
    ValidationError(c.message, c.code, params)
  }

  /** The common shape of a pattern validator's `__call__`: return when the pattern
      matches, otherwise raise with `params={"value": value}`. */
  function Guard(c: Config, matched: bool, value: string): (r: Check<string>)
    ensures r.Accepted? <==> matched
    ensures r.Rejected? ==> r.error == ValidationError(c.message, c.code, map["value" := value])
  {
    if matched then Accepted else Rejected(Reject(c, map["value" := value]))
  }
}
