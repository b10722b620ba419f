/** The accept/reject examples of the validator test suites, as instances of the
    models of `ValidatorE164`, `BitcoinAddressValidator`, `IBANValidator`, the geo
    validators, `EventTimeRangeValidator` and `SizeValidator`. */
module ValidatorExamples {
  import opened Python
  import opened Validation
  import PhoneNumber
  import Bitcoin
  import Iban
  import GeoLocation
  import Event
  import ImageValidators

  lemma PhoneAccepted(s: string)
    requires PhoneNumber.Matches(s)
    ensures PhoneNumber.Call(PhoneNumber.ValidateE164(), s).Accepted?
  {
    PhoneNumber.MatchesIffE164(s);
  }

  lemma PhoneRejected(s: string)
    requires !PhoneNumber.Matches(s)
    ensures PhoneNumber.Call(PhoneNumber.ValidateE164(), s).Rejected?
  {
    PhoneNumber.MatchesIffE164(s);
  }

  lemma ValidPhoneNumbers()
    ensures PhoneNumber.Call(PhoneNumber.ValidateE164(), "+14155552671").Accepted?
    ensures PhoneNumber.Call(PhoneNumber.ValidateE164(), "+447911123456").Accepted?
    ensures PhoneNumber.Call(PhoneNumber.ValidateE164(), "+123456789012").Accepted?
  {
    PhoneAccepted("+14155552671");
    PhoneAccepted("+447911123456");
    PhoneAccepted("+123456789012");
  }

  lemma InvalidPhoneNumbers()
    ensures PhoneNumber.Call(PhoneNumber.ValidateE164(), "14155552671").Rejected?
    ensures PhoneNumber.Call(PhoneNumber.ValidateE164(), "123456789012").Rejected?
    ensures PhoneNumber.Call(PhoneNumber.ValidateE164(), "invalidnumber").Rejected?
    ensures PhoneNumber.Call(PhoneNumber.ValidateE164(), "").Rejected?
    ensures PhoneNumber.Call(PhoneNumber.ValidateE164(), "+12345678901234567890").Rejected?
  {
    PhoneRejected("14155552671");
    PhoneRejected("123456789012");
    PhoneRejected("invalidnumber");
    PhoneRejected("");
    PhoneRejected("+12345678901234567890");
  }

  /** Fifteen digits followed by one newline are 17 characters and still accepted,
      because `$` matches before a final newline. */
  lemma FinalNewlinePhone()
    ensures PhoneNumber.Call(PhoneNumber.ValidateE164(), "+123456789012345\n").Accepted?
  {
    PhoneAccepted("+123456789012345\n");
  }

  lemma BitcoinAccepted(s: string)
    requires Bitcoin.Matches(s)
    ensures Bitcoin.Call(Bitcoin.ValidateBitcoinAddress(), s).Accepted?
  {
    Bitcoin.MatchesIffShape(s);
  }

  /** An address body checked a few characters at a time. */
  lemma Base58Pieces(a: string, b: string, c: string)
    requires Bitcoin.AllBase58(a) && Bitcoin.AllBase58(b) && Bitcoin.AllBase58(c)
    ensures Bitcoin.AllBase58(a + b + c)
  {
    forall i | 0 <= i < |a + b + c|
      ensures Bitcoin.Base58((a + b + c)[i])
    {
      if i < |a| {
        assert (a + b + c)[i] == a[i];
      } else if i < |a| + |b| {
        assert (a + b + c)[i] == b[i - |a|];
      } else {
        assert (a + b + c)[i] == c[i - |a| - |b|];
      }
    }
  }

  lemma BitcoinRejected(s: string)
    requires !Bitcoin.Matches(s)
    ensures Bitcoin.Call(Bitcoin.ValidateBitcoinAddress(), s).Rejected?
  {
    Bitcoin.MatchesIffShape(s);
  }

  /** The genesis-block address. */
  lemma GenesisAddress()
    ensures Bitcoin.Call(Bitcoin.ValidateBitcoinAddress(), "1" + ("A1zP1eP5QGe" + "fi2DMPTfTL5" + "SLmv7DivfNa")).Accepted?
  {
    Base58Pieces("A1zP1eP5QGe", "fi2DMPTfTL5", "SLmv7DivfNa");
    Bitcoin.AnyShapedAccepted(Bitcoin.ValidateBitcoinAddress(), '1', "A1zP1eP5QGe" + "fi2DMPTfTL5" + "SLmv7DivfNa");
  }

  /** A pay-to-script-hash address. */
  lemma ScriptHashAddress()
    ensures Bitcoin.Call(Bitcoin.ValidateBitcoinAddress(), "3" + ("J98t1WpEZ73" + "CNmQviecrny" + "iWrnqRhWNLy")).Accepted?
  {
    Base58Pieces("J98t1WpEZ73", "CNmQviecrny", "iWrnqRhWNLy");
    Bitcoin.AnyShapedAccepted(Bitcoin.ValidateBitcoinAddress(), '3', "J98t1WpEZ73" + "CNmQviecrny" + "iWrnqRhWNLy");
  }

  lemma InvalidBitcoinAddresses()
    ensures Bitcoin.Call(Bitcoin.ValidateBitcoinAddress(), "1A1zP1eP5QGefi2D").Rejected?
    ensures Bitcoin.Call(Bitcoin.ValidateBitcoinAddress(), "mQviecrnyiWrnqRhWNLyy").Rejected?
    ensures Bitcoin.Call(Bitcoin.ValidateBitcoinAddress(), "invalidbitcoinaddress").Rejected?
    ensures Bitcoin.Call(Bitcoin.ValidateBitcoinAddress(), "invalid_bitcoin_address").Rejected?
    ensures Bitcoin.Call(Bitcoin.ValidateBitcoinAddress(), "").Rejected?
  {
    BitcoinRejected("1A1zP1eP5QGefi2D");
    BitcoinRejected("mQviecrnyiWrnqRhWNLyy");
    BitcoinRejected("invalidbitcoinaddress");
    BitcoinRejected("invalid_bitcoin_address");
    BitcoinRejected("");
  }

  lemma IbanAccepted(s: string)
    requires Iban.Matches(s)
    ensures Iban.Call(Iban.ValidateIban(), s).Accepted?
  {
    Iban.MatchesIffShape(s);
  }

  lemma IbanRejected(s: string)
    requires !Iban.Matches(s)
    ensures Iban.Call(Iban.ValidateIban(), s).Rejected?
  {
    Iban.MatchesIffShape(s);
  }

  /** A German IBAN, split into country code, check digits and account part. */
  lemma GermanIban()
    ensures Iban.Call(Iban.ValidateIban(), "DE89370400440532013000").Accepted?
  {
    assert "DE89370400440532013000" == "DE" + "89" + "370400440532013000";
    Iban.CheckDigitsIgnored(Iban.ValidateIban(), "DE", "89", "370400440532013000");
  }

  /** A British IBAN, split into country code, check digits and account part. */
  lemma BritishIban()
    ensures Iban.Call(Iban.ValidateIban(), "GB33BUKB20201555555555").Accepted?
  {
    assert "GB33BUKB20201555555555" == "GB" + "33" + "BUKB20201555555555";
    Iban.CheckDigitsIgnored(Iban.ValidateIban(), "GB", "33", "BUKB20201555555555");
  }

  lemma ValidIbans()
    ensures Iban.Call(Iban.ValidateIban(), "DE89370400440532013000").Accepted?
    ensures Iban.Call(Iban.ValidateIban(), "GB33BUKB20201555555555").Accepted?
    ensures Iban.Call(Iban.ValidateIban(), "DE00X").Accepted?
  {
    GermanIban();
    BritishIban();
    IbanAccepted("DE00X");
  }

  lemma InvalidIbans()
    ensures Iban.Call(Iban.ValidateIban(), "INVALIDIBAN").Rejected?
    ensures Iban.Call(Iban.ValidateIban(), "INVALIDIBAN2").Rejected?
    ensures Iban.Call(Iban.ValidateIban(), "INVALID_IBAN").Rejected?
    ensures Iban.Call(Iban.ValidateIban(), "").Rejected?
    ensures Iban.Call(Iban.ValidateIban(), "de89370400440532013000").Rejected?
  {
    IbanRejected("INVALIDIBAN");
    IbanRejected("INVALIDIBAN2");
    IbanRejected("INVALID_IBAN");
    IbanRejected("");
    IbanRejected("de89370400440532013000");
  }

  lemma Latitudes()
    ensures GeoLocation.Call(GeoLocation.LatitudeValidator, 45.0).Accepted?
    ensures GeoLocation.Call(GeoLocation.LatitudeValidator, -90.0).Accepted?
    ensures GeoLocation.Call(GeoLocation.LatitudeValidator, 90.0).Accepted?
    ensures GeoLocation.Call(GeoLocation.LatitudeValidator, -91.0).Rejected?
    ensures GeoLocation.Call(GeoLocation.LatitudeValidator, 91.0).Rejected?
    ensures GeoLocation.Call(GeoLocation.LatitudeValidator, 100.0).Rejected?
  {
  }

  lemma Longitudes()
    ensures GeoLocation.Call(GeoLocation.LongitudeValidator, 90.0).Accepted?
    ensures GeoLocation.Call(GeoLocation.LongitudeValidator, -180.0).Accepted?
    ensures GeoLocation.Call(GeoLocation.LongitudeValidator, 180.0).Accepted?
    ensures GeoLocation.Call(GeoLocation.LongitudeValidator, -181.0).Rejected?
    ensures GeoLocation.Call(GeoLocation.LongitudeValidator, 181.0).Rejected?
    ensures GeoLocation.Call(GeoLocation.LongitudeValidator, 200.0).Rejected?
  {
  }

  lemma EventTimes()
    ensures Event.Call(Event.ValidateEventTimeRange(), Event.StrLe, "10:00", "11:00").Accepted?
    ensures Event.Call(Event.ValidateEventTimeRange(), Event.StrLe, "11:00", "10:00").Rejected?
    ensures Event.Call(Event.ValidateEventTimeRange(), Event.StrLe, "10:00", "10:00").Rejected?
    ensures Event.Call(Event.ValidateEventTimeRange(), Event.StrLe, "invalid", "11:00").Rejected?
  {
    Event.StringTimes(Event.ValidateEventTimeRange(), "10:00", "11:00");
    Event.StringTimes(Event.ValidateEventTimeRange(), "11:00", "10:00");
    Event.StringTimes(Event.ValidateEventTimeRange(), "invalid", "11:00");
  }

  lemma Sizes()
    ensures ImageValidators.CallSize(ImageValidators.ValidateSize(), Some(500)).Accepted?
    ensures ImageValidators.CallSize(ImageValidators.ValidateSize(), Some(1)).Accepted?
    ensures ImageValidators.CallSize(ImageValidators.ValidateSize(), Some(1000)).Accepted?
    ensures ImageValidators.CallSize(ImageValidators.ValidateSize(), Some(0)).Rejected?
    ensures ImageValidators.CallSize(ImageValidators.ValidateSize(), Some(1001)).Rejected?
    ensures ImageValidators.CallSize(ImageValidators.ValidateSize(), Some(2000)).Rejected?
    ensures ImageValidators.CallSize(ImageValidators.ValidateSize(), None).Accepted?
  {
  }
}
