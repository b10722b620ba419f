/** `EventTimeRangeValidator` (`django_sage_qrcode/helpers/validators/event.py`). Its
    `__call__` compares the two times with Python's `<=` and nothing else, so it is
    modelled over any type together with that type's `<=`; strings, which the tests
    pass, get Python's lexicographic order. */
module Event {
  import opened Python
  import opened Validation

  /** A validator instance; `__eq__` compares class, message and code. */
  datatype EventTimeRangeValidator = EventTimeRangeValidator(config: Config)

  const DefaultMessage := "End time must be after start time."

  /** `EventTimeRangeValidator(message=None, code=None)`. */
  function New(message: Option<string>, code: Option<string>): (v: EventTimeRangeValidator)
    ensures v.config.message == (if message.Some? then message.value else DefaultMessage)
    ensures v.config.code == (if code.Some? then code.value else "invalid_time_range")
  {
    EventTimeRangeValidator(Configure(Config(DefaultMessage, "invalid_time_range"), message, code))
  }

  /** The module-level instance `validate_event_time_range`. */
  function ValidateEventTimeRange(): EventTimeRangeValidator { New(None, None) }

  /** `__call__(start_time, end_time)` where `le` is the argument type's `<=`: raises
      iff the end is not after the start, with both times in `params`. */
  function Call<T>(v: EventTimeRangeValidator, le: (T, T) -> bool, start: T, end: T): (r: Check<T>)
    ensures r.Accepted? <==> !le(end, start)
    ensures r.Rejected? ==> r.error == ValidationError(v.config.message, v.config.code,
                                                       map["start_time" := start, "end_time" := end])
  {
    if le(end, start) then
      Rejected(Reject(v.config, map["start_time" := start, "end_time" := end]))
    else
      Accepted
  }

  /** With a reflexive order an event that ends when it starts is rejected. */
  lemma EqualTimesRejected<T>(v: EventTimeRangeValidator, le: (T, T) -> bool, t: T)
    requires le(t, t)
    ensures Call(v, le, t, t).Rejected?
  {
  }

  /** Python's `a < b` on `str`: lexicographic by code point, a proper prefix being
      smaller. */
  predicate StrLess(a: string, b: string)
    decreases |a|
  {
    if |a| == 0 then |b| > 0
    else if |b| == 0 then false
    else if a[0] != b[0] then a[0] < b[0]
    else StrLess(a[1..], b[1..])
  }

  /** Python's `a <= b` on `str`. */
  predicate StrLe(a: string, b: string) {
    a == b || StrLess(a, b)
  }

  /** Exactly one of `a < b`, `a == b`, `b < a` holds. */
  lemma {:induction false} StrTrichotomy(a: string, b: string)
    ensures StrLess(a, b) || a == b || StrLess(b, a)
    ensures !(StrLess(a, b) && StrLess(b, a))
    ensures !(StrLess(a, b) && a == b)
    decreases |a|
  {
    if |a| > 0 && |b| > 0 && a[0] == b[0] {
      StrTrichotomy(a[1..], b[1..]);
      if a[1..] == b[1..] {
        assert a == [a[0]] + a[1..] && b == [b[0]] + b[1..];
      }
    }
  }

  /** `a < b` and `b < c` give `a < c`: with trichotomy, the order is a strict total
      order. */
  lemma {:induction false} StrLessTransitive(a: string, b: string, c: string)
    requires StrLess(a, b) && StrLess(b, c)
    ensures StrLess(a, c)
    decreases |a|
  {
    if |a| > 0 && a[0] == b[0] && b[0] == c[0] {
      StrLessTransitive(a[1..], b[1..], c[1..]);
    }
  }

  /** On strings the validator accepts exactly when the start sorts strictly before
      the end. */
  lemma StringTimes(v: EventTimeRangeValidator, start: string, end: string)
    ensures Call(v, StrLe, start, end).Accepted? <==> StrLess(start, end)
  {
    StrTrichotomy(start, end);
  }
}
