/** `ValidatorE164` (`helpers/validators/phone_number.py`, identical in both
    packages): the pattern `^\+[1-9]\d{1,14}$` applied with `re.match`. `\d` is
    taken to be an ASCII digit. */
module PhoneNumber {
  import opened Python
  import opened Text
  import opened Regex
  import opened Validation

  /** A validator instance; `__eq__` compares class, message and code. */
  datatype ValidatorE164 = ValidatorE164(config: Config)

  const DefaultMessage := "Invalid phone number format. Must be in E.164 format."

  /** `ValidatorE164(message=None, code=None)`. */
  function New(message: Option<string>, code: Option<string>): (v: ValidatorE164)
    ensures v.config.message == (if message.Some? then message.value else DefaultMessage)
    ensures v.config.code == (if code.Some? then code.value else "invalid")
  {
    ValidatorE164(Configure(Config(DefaultMessage, "invalid"), message, code))
  }

  /** The two module-level instances, `validate_e164` and `validate_phone_number`. */
  function ValidateE164(): ValidatorE164 { New(None, None) }
  function ValidatePhoneNumber(): ValidatorE164 { New(None, None) }

  predicate AllDigits(s: string) {
    forall i :: 0 <= i < |s| ==> IsDigit(s[i])
  }

  /** A number written out: `+`, its leading digit, the other digits, and an
      optional final newline. */
  function Number(lead: char, digits: string, newline: bool): string {
    "+" + [lead] + digits + (if newline then "\n" else "")
  }

  /** The pattern read as a grammar: `+`, a digit 1-9, one to fourteen digits, and
      at most one final newline (which `$` lets through). */
  ghost predicate E164(s: string) {
    exists lead: char, digits: string, newline: bool ::
      && '1' <= lead <= '9'
      && 1 <= |digits| <= 14
      && AllDigits(digits)
      && s == Number(lead, digits, newline)
  }

  /** What `regex.match(s)` decides, position by position on the text before `$`. */
  predicate Matches(s: string) {
    var b := BeforeDollar(s);
    && 3 <= |b| <= 16
    && b[0] == '+'
    && '1' <= b[1] <= '9'
    && AllDigits(b[2..])
  }

  lemma MatchesIffE164(s: string)
    ensures Matches(s) <==> E164(s)
  {
    if Matches(s) {
      var b := BeforeDollar(s);
      var newline := s != b;
      assert b == "+" + [b[1]] + b[2..];
      assert s == Number(b[1], b[2..], newline);
    }
    if E164(s) {
      var lead: char, digits: string, newline: bool :|
        '1' <= lead <= '9' && 1 <= |digits| <= 14 && AllDigits(digits)
        && s == Number(lead, digits, newline);
      var b := "+" + [lead] + digits;
      assert b[|b| - 1] == digits[|digits| - 1];
      BeforeDollarOf(b, newline);
      assert b[2..] == digits;
    }
  }

  /** `__call__`: returns iff the value is an E.164 number, otherwise raises with the
      configured message and code and the value in `params`. */
  function Call(v: ValidatorE164, value: string): (r: Check<string>)
    ensures r.Accepted? <==> E164(value)
    ensures r.Rejected? ==> r.error == ValidationError(v.config.message, v.config.code, map["value" := value])
  {
    MatchesIffE164(value);
    Guard(v.config, Matches(value), value)
  }

  /** An accepted number holds 2 to 15 digits after the `+`, so it is at most 16
      characters long, or 17 when `$` let a final newline through. */
  lemma AcceptedDigits(s: string)
    requires E164(s)
    ensures var b := BeforeDollar(s); 3 <= |b| <= 16 && b[0] == '+' && AllDigits(b[1..])
    ensures |s| <= 16 || (|s| == 17 && s[16] == '\n')
  {
    MatchesIffE164(s);
    var b := BeforeDollar(s);
    assert b[1..] == [b[1]] + b[2..];
  }

  /** Without the leading `+` nothing is accepted (the empty string included). */
  lemma MissingPlusRejected(s: string)
    requires |s| == 0 || s[0] != '+'
    ensures !E164(s)
  {
    MatchesIffE164(s);
  }

  /** A zero straight after the `+` is rejected. */
  lemma LeadingZeroRejected(s: string)
    requires |s| >= 2 && s[1] == '0'
    ensures !E164(s)
  {
    MatchesIffE164(s);
  }

  /** More than fifteen digits are rejected. */
  lemma TooManyDigitsRejected(digits: string, newline: bool)
    requires AllDigits(digits) && |digits| > 15
    ensures !E164("+" + digits + (if newline then "\n" else ""))
  {
    var s := "+" + digits + (if newline then "\n" else "");
    MatchesIffE164(s);
    var b := "+" + digits;
    assert b[|b| - 1] == digits[|digits| - 1];
    BeforeDollarOf(b, newline);
  }

  /** The two module-level instances are distinct objects that compare equal. */
  lemma InstancesEqual()
    ensures ValidateE164() == ValidatePhoneNumber()
    ensures ValidateE164().config == Config(DefaultMessage, "invalid")
  {
  }
}
