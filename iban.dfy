/** `IBANValidator` (`django_sage_qrcode/helpers/validators/iban.py`): the pattern
    `^[A-Z]{2}[0-9]{2}[A-Z0-9]{1,30}$` applied with `re.match`, without
    `re.IGNORECASE`. Only the shape is checked; the ISO 13616 mod-97 check digits are
    not. */
module Iban {
  import opened Python
  import opened Text
  import opened Regex
  import opened Validation

  /** A validator instance; `__eq__` compares class, message and code. */
  datatype IBANValidator = IBANValidator(config: Config)

  const DefaultMessage := "Enter a valid IBAN."

  /** `IBANValidator(message=None, code=None)`. */
  function New(message: Option<string>, code: Option<string>): (v: IBANValidator)
    ensures v.config.message == (if message.Some? then message.value else DefaultMessage)
    ensures v.config.code == (if code.Some? then code.value else "invalid")
  {
    IBANValidator(Configure(Config(DefaultMessage, "invalid"), message, code))
  }

  /** The module-level instance `validate_iban`. */
  function ValidateIban(): IBANValidator { New(None, None) }

  predicate IsUpper(c: char) {
    'A' <= c <= 'Z'
  }

  /** The class `[A-Z0-9]`. */
  predicate IsUpperOrDigit(c: char) {
    IsUpper(c) || IsDigit(c)
  }

  predicate AllUpperOrDigit(s: string) {
    forall i :: 0 <= i < |s| ==> IsUpperOrDigit(s[i])
  }

  /** An IBAN written out: country code, check digits, account part and an optional
      final newline. */
  function Account(country: string, check: string, bban: string, newline: bool): string {
    country + check + bban + (if newline then "\n" else "")
  }

  /** The pattern read as a grammar: two upper-case letters, two digits, one to
      thirty upper-case letters or digits, then at most one final newline. */
  ghost predicate Shape(s: string) {
    exists country: string, check: string, bban: string, newline: bool ::
      && |country| == 2 && IsUpper(country[0]) && IsUpper(country[1])
      && |check| == 2 && IsDigit(check[0]) && IsDigit(check[1])
      && 1 <= |bban| <= 30 && AllUpperOrDigit(bban)
      && s == Account(country, check, bban, newline)
  }

  /** What `regex.match(s)` decides, on the text before `$`. */
  predicate Matches(s: string) {
    var b := BeforeDollar(s);
    && 5 <= |b| <= 34
    && IsUpper(b[0]) && IsUpper(b[1])
    && IsDigit(b[2]) && IsDigit(b[3])
    && AllUpperOrDigit(b[4..])
  }

  lemma MatchesIffShape(s: string)
    ensures Matches(s) <==> Shape(s)
  {
    if Matches(s) {
      var b := BeforeDollar(s);
      var newline := s != b;
      assert b == b[..2] + b[2..4] + b[4..];
      assert s == Account(b[..2], b[2..4], b[4..], newline);
    }
    if Shape(s) {
      var country: string, check: string, bban: string, newline: bool :|
        && |country| == 2 && IsUpper(country[0]) && IsUpper(country[1])
        && |check| == 2 && IsDigit(check[0]) && IsDigit(check[1])
        && 1 <= |bban| <= 30 && AllUpperOrDigit(bban)
        && s == Account(country, check, bban, newline);
      var b := country + check + bban;
      assert b[|b| - 1] == bban[|bban| - 1];
      BeforeDollarOf(b, newline);
      assert b[4..] == bban;
    }
  }

  /** `__call__`: returns iff the value has the shape of an IBAN, otherwise raises
      with the configured message and code and the value in `params`. */
  function Call(v: IBANValidator, value: string): (r: Check<string>)
    ensures r.Accepted? <==> Shape(value)
    ensures r.Rejected? ==> r.error == ValidationError(v.config.message, v.config.code, map["value" := value])
  {
    MatchesIffShape(value);
    Guard(v.config, Matches(value), value)
  }

  /** Accepted values are 5 to 34 characters long (one more when `$` let a final
      newline through). */
  lemma AcceptedLength(s: string)
    requires Shape(s)
    ensures 5 <= |BeforeDollar(s)| <= 34
    ensures 5 <= |s| <= 35
  {
    MatchesIffShape(s);
  }

  /** Matching is case-sensitive and the alphabet is closed: a lower-case letter, a
      space, an `_` or any other character outside `[A-Z0-9]` anywhere (other than
      one final newline) causes rejection. */
  lemma ForeignCharacterRejected(s: string, i: int)
    requires 0 <= i < |s| && s[i] != '\n' && !IsUpperOrDigit(s[i])
    ensures !Shape(s)
  {
    MatchesIffShape(s);
    var b := BeforeDollar(s);
    assert i < |b| && b[i] == s[i];
    if i >= 4 && |b| >= 4 {
      assert b[4..][i - 4] == s[i];
    }
  }

  /** The check digits are not verified: any two digits are accepted after a country
      code, so `DE00X` passes. */
  lemma CheckDigitsIgnored(v: IBANValidator, country: string, check: string, bban: string)
    requires |country| == 2 && IsUpper(country[0]) && IsUpper(country[1])
    requires |check| == 2 && IsDigit(check[0]) && IsDigit(check[1])
    requires 1 <= |bban| <= 30 && AllUpperOrDigit(bban)
    ensures Call(v, country + check + bban).Accepted?
  {
    assert country + check + bban == Account(country, check, bban, false);
  }
}
