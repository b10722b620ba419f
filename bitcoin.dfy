/** `BitcoinAddressValidator` (`django_sage_qrcode/helpers/validators/bitcoin.py`):
    the pattern `^[13][a-km-zA-HJ-NP-Z1-9]{25,34}$` applied with `re.match`. Only the
    shape of a legacy (P2PKH or P2SH) address is checked; its Base58Check checksum is
    not. */
module Bitcoin {
  import opened Python
  import opened Regex
  import opened Validation

  /** A validator instance; `__eq__` compares class, message and code. */
  datatype BitcoinAddressValidator = BitcoinAddressValidator(config: Config)

  const DefaultMessage := "Enter a valid Bitcoin address."

  /** `BitcoinAddressValidator(message=None, code=None)`. */
  function New(message: Option<string>, code: Option<string>): (v: BitcoinAddressValidator)
    ensures v.config.message == (if message.Some? then message.value else DefaultMessage)
    ensures v.config.code == (if code.Some? then code.value else "invalid")
  {
    BitcoinAddressValidator(Configure(Config(DefaultMessage, "invalid"), message, code))
  }

  /** The module-level instance `validate_bitcoin_address`. */
  function ValidateBitcoinAddress(): BitcoinAddressValidator { New(None, None) }

  /** The character class `[a-km-zA-HJ-NP-Z1-9]`: the Base58 alphabet, which leaves
      out `0`, `O`, `I` and `l`. */
  predicate Base58(c: char) {
    || 'a' <= c <= 'k' || 'm' <= c <= 'z'
    || 'A' <= c <= 'H' || 'J' <= c <= 'N' || 'P' <= c <= 'Z'
    || '1' <= c <= '9'
  }

  predicate AllBase58(s: string) {
    forall i :: 0 <= i < |s| ==> Base58(s[i])
  }

  /** An address written out: its version character, the rest, and an optional final
      newline. */
  function Address(version: char, body: string, newline: bool): string {
    [version] + body + (if newline then "\n" else "")
  }

  /** The pattern read as a grammar: `1` or `3`, then 25 to 34 Base58 characters,
      then at most one final newline. */
  ghost predicate Shape(s: string) {
    exists version: char, body: string, newline: bool ::
      && (version == '1' || version == '3')
      && 25 <= |body| <= 34
      && AllBase58(body)
      && s == Address(version, body, newline)
  }

  /** What `regex.match(s)` decides, on the text before `$`. */
  predicate Matches(s: string) {
    var b := BeforeDollar(s);
    && 26 <= |b| <= 35
    && (b[0] == '1' || b[0] == '3')
    && AllBase58(b[1..])
  }

  lemma MatchesIffShape(s: string)
    ensures Matches(s) <==> Shape(s)
  {
    if Matches(s) {
      var b := BeforeDollar(s);
      var newline := s != b;
      assert b == [b[0]] + b[1..];
      assert s == Address(b[0], b[1..], newline);
    }
    if Shape(s) {
      var version: char, body: string, newline: bool :|
        (version == '1' || version == '3') && 25 <= |body| <= 34 && AllBase58(body)
        && s == Address(version, body, newline);
      var b := [version] + body;
      assert b[|b| - 1] == body[|body| - 1];
      BeforeDollarOf(b, newline);
      assert b[1..] == body;
    }
  }

  /** `__call__`: returns iff the value has the shape of a legacy address, otherwise
      raises with the configured message and code and the value in `params`. */
  function Call(v: BitcoinAddressValidator, value: string): (r: Check<string>)
    ensures r.Accepted? <==> Shape(value)
    ensures r.Rejected? ==> r.error == ValidationError(v.config.message, v.config.code, map["value" := value])
  {
    MatchesIffShape(value);
    Guard(v.config, Matches(value), value)
  }

  /** Accepted addresses are 26 to 35 characters long (one more when `$` let a final
      newline through), as the class documentation says. */
  lemma AcceptedLength(s: string)
    requires Shape(s)
    ensures 26 <= |BeforeDollar(s)| <= 35
    ensures 26 <= |s| <= 36
  {
    MatchesIffShape(s);
  }

  /** `0`, `O`, `I` and `l` anywhere after the first position cause rejection. */
  lemma ExcludedCharacterRejected(s: string, i: int)
    requires 1 <= i < |s| && s[i] in "0OIl"
    ensures !Shape(s)
  {
    MatchesIffShape(s);
    var b := BeforeDollar(s);
    assert i < |b| && b[1..][i - 1] == s[i];
  }

  /** Anything not starting with `1` or `3` is rejected: the empty string, testnet
      addresses, and bech32 addresses such as `bc1…`. */
  lemma OtherVersionRejected(s: string)
    requires |s| == 0 || (s[0] != '1' && s[0] != '3')
    ensures !Shape(s)
  {
    MatchesIffShape(s);
  }

  /** No checksum is computed: every correctly shaped string is accepted. */
  lemma AnyShapedAccepted(v: BitcoinAddressValidator, version: char, body: string)
    requires version == '1' || version == '3'
    requires 25 <= |body| <= 34 && AllBase58(body)
    ensures Call(v, [version] + body).Accepted?
  {
    assert [version] + body == Address(version, body, false);
  }
}
