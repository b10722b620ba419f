/** The payload texts the payment and contact services encode
    (`service/payment_qrcode.py` and `service/contact_qrcode.py` of both packages):
    an EPC credit-transfer block, a `bitcoin:` URI, a MECARD and a vCard 3.0. */
module Payloads {
  import opened Python
  import opened Text
  import opened UrlEncoding

  /** An amount as the caller passes it: its exact value and the text `str()`
      prints for it (`"10.00"` for the admin's two-place decimal, `"10.0"` for a
      float). */
  datatype Amount = Amount(value: real, text: string)

  /** Truncation toward zero, as Python's `int()` does on a number. */
  function Trunc(x: real): (n: int)
    ensures x >= 0.0 ==> n as real <= x < n as real + 1.0
    ensures x < 0.0 ==> n as real - 1.0 < x <= n as real
  {
    if x >= 0.0 then x.Floor else -((-x).Floor)
  }

  /** `int(amount * 100)`. */
  function Cents(a: Amount): int {
    Trunc(a.value * 100.0)
  }

  /** An amount with at most two decimal places gives exactly its number of cents. */
  lemma CentsExact(k: int, text: string)
    ensures Cents(Amount(k as real / 100.0, text)) == k
  {
    assert (k as real / 100.0) * 100.0 == k as real;
  }

  /** The cents line drops any further decimals toward zero. */
  lemma CentsTruncates(a: Amount)
    ensures a.value >= 0.0 ==> Cents(a) as real <= a.value * 100.0 < Cents(a) as real + 1.0
    ensures a.value < 0.0 ==> Cents(a) as real - 1.0 < a.value * 100.0 <= Cents(a) as real
  {
  }

  // ---------------------------------------------------------------- EPC

  /** `generate_epc_qr_code`'s payload. */
  function EpcData(name: string, iban: string, amount: Amount, text: string): string {
    "BCD" + "\n" + "001" + "\n" + "1" + "\n" + "SCT" + "\n" + name + "\n" + iban + "\n"
      + "EUR" + amount.text + "\n" + IntText(Cents(amount)) + "\n" + text + "\n"
  }

  /** The nine lines of the block, in order. */
  function EpcLines(name: string, iban: string, amount: Amount, text: string): (lines: seq<string>)
    ensures |lines| == 9
  {
    ["BCD", "001", "1", "SCT", name, iban, "EUR" + amount.text, IntText(Cents(amount)), text]
  }

  /** The block is its nine lines, each followed by a newline; when no field holds
      a newline, splitting at newlines gives the nine lines back and an empty text
      after the last one. */
  lemma EpcShape(name: string, iban: string, amount: Amount, text: string)
    ensures EpcData(name, iban, amount, text) == Terminated(EpcLines(name, iban, amount, text), '\n')
    ensures Free(EpcLines(name, iban, amount, text), '\n') ==>
              Split(EpcData(name, iban, amount, text), '\n') == EpcLines(name, iban, amount, text) + [""]
  {
    EpcTerminated(name, iban, amount.text, IntText(Cents(amount)), text);
    if Free(EpcLines(name, iban, amount, text), '\n') {
      SplitTerminated(EpcLines(name, iban, amount, text), '\n');
    }
  }

  /** `EpcShape` over the texts of the lines. */
  lemma EpcTerminated(name: string, iban: string, amountText: string, cents: string, text: string)
    ensures "BCD" + "\n" + "001" + "\n" + "1" + "\n" + "SCT" + "\n" + name + "\n" + iban + "\n"
            + "EUR" + amountText + "\n" + cents + "\n" + text + "\n"
         == Terminated(["BCD", "001", "1", "SCT", name, iban, "EUR" + amountText, cents, text], '\n')
  {
    var lines := ["BCD", "001", "1", "SCT", name, iban, "EUR" + amountText, cents, text];
    var header := "BCD" + "\n" + "001" + "\n" + "1" + "\n" + "SCT" + "\n";
    assert Terminated(lines[..4], '\n') == header by {
      assert lines[..4] == ["BCD", "001", "1", "SCT"];
      assert Terminated(["BCD", "001", "1", "SCT"], '\n') == "BCD\n001\n1\nSCT\n";
    }
    var d5 := header + name + "\n";
    assert Terminated(lines[..5], '\n') == d5 by {
      TerminatedSnoc(lines[..4], name, '\n');
      assert lines[..5] == lines[..4] + [name];
    }
    var d6 := d5 + iban + "\n";
    assert Terminated(lines[..6], '\n') == d6 by {
      TerminatedSnoc(lines[..5], iban, '\n');
      assert lines[..6] == lines[..5] + [iban];
    }
    var d7 := d6 + "EUR" + amountText + "\n";
    assert Terminated(lines[..7], '\n') == d7 by {
      TerminatedSnoc(lines[..6], "EUR" + amountText, '\n');
      assert lines[..7] == lines[..6] + ["EUR" + amountText];
      assert d6 + ("EUR" + amountText) == d6 + "EUR" + amountText;
    }
    var d8 := d7 + cents + "\n";
    assert Terminated(lines[..8], '\n') == d8 by {
      TerminatedSnoc(lines[..7], cents, '\n');
      assert lines[..8] == lines[..7] + [cents];
    }
    assert Terminated(lines, '\n') == d8 + text + "\n" by {
      TerminatedSnoc(lines[..8], text, '\n');
      assert lines == lines[..8] + [text];
    }
  }

  /** The amount in cents is printed as a plain number, no field of the fixed
      header holds a newline, and the cents line reads back as the cents. */
  lemma EpcCentsLine(name: string, iban: string, amount: Amount, text: string)
    requires Cents(amount) >= 0
    ensures EpcLines(name, iban, amount, text)[7] == NatText(Cents(amount))
    ensures ParseDigits(EpcLines(name, iban, amount, text)[7]) == Cents(amount)
  {
    NatTextRoundTrip(Cents(amount));
  }

  /** With the default empty remittance text the block ends in an empty line. */
  lemma EpcDefaultText(name: string, iban: string, amount: Amount)
    ensures var d := EpcData(name, iban, amount, "");
      |d| >= 2 && d[|d| - 2..] == "\n\n"
  {
  }

  /** Ten euros written as `10.00` gives the lines `EUR10.00` and `1000`. */
  lemma EpcTenEuros(name: string, iban: string)
    ensures EpcLines(name, iban, Amount(10.0, "10.00"), "")[6] == "EUR10.00"
    ensures EpcLines(name, iban, Amount(10.0, "10.00"), "")[7] == "1000"
  {
    CentsExact(1000, "10.00");
    assert NatText(1) == "1";
    assert NatText(10) == "10";
    assert NatText(100) == "100";
    assert NatText(1000) == "1000";
  }

  // ---------------------------------------------------------------- Bitcoin

  /** The amount as `str()` prints it, when there is one. */
  function AmountText(amount: Option<Amount>): (t: Option<string>)
    ensures t.Some? <==> amount.Some?
  {
    if amount.Some? then Some(amount.value.text) else None
  }

  /** One parameter of the dict comprehension: kept as a pair when it is not `None`. */
  function Param(key: string, value: Option<string>): (pairs: seq<(string, string)>)
    ensures |pairs| == (if value.Some? then 1 else 0)
  {
    if value.Some? then [(key, value.value)] else []
  }

  /** The query parameters kept by the dict comprehension: those that are not
      `None`, in the order amount, label, message. `urlencode` prints the amount
      with `str()`. */
  function BitcoinParams(amount: Option<Amount>, labelText: Option<string>, message: Option<string>)
    : seq<(string, string)>
  {
    Param("amount", AmountText(amount)) + Param("label", labelText) + Param("message", message)
  }

  /** `generate_bitcoin_qr_code`'s URI. */
  function BitcoinUri(address: string, amount: Option<Amount>, labelText: Option<string>,
                      message: Option<string>): string
  {
    WithQuery(address, UrlEncode(BitcoinParams(amount, labelText, message)))
  }

  /** The `bitcoin:` URI of an address and an encoded query, with `?` only before
      a non-empty query. */
  function WithQuery(address: string, query: string): (uri: string)
    ensures query == "" ==> uri == "bitcoin:" + address
    ensures query != "" ==> uri == "bitcoin:" + address + "?" + query
  {
    "bitcoin:" + address + (if query != "" then "?" + query else "")
  }

  /** One query field for a key made of letters. */
  function QueryField(key: string, value: string): string {
    key + "=" + QuotePlus(value)
  }

  /** The query field a parameter is expected to give: none for `None`. */
  function OptionalField(key: string, value: Option<string>): seq<string> {
    if value.Some? then [QueryField(key, value.value)] else []
  }

  /** The query fields a URI is expected to carry: one per parameter that is not
      `None`, in the order amount, label, message. */
  function QueryFields(amount: Option<Amount>, labelText: Option<string>, message: Option<string>)
    : seq<string>
  {
    OptionalField("amount", AmountText(amount)) + OptionalField("label", labelText)
      + OptionalField("message", message)
  }

  /** A parameter whose key needs no escaping gives its expected field. */
  lemma ParamField(key: string, value: Option<string>)
    requires forall i :: 0 <= i < |key| ==> Unreserved(key[i])
    ensures Fields(Param(key, value)) == OptionalField(key, value)
  {
    QuotePlusUnreserved(key);
  }

  /** The keys are written unescaped, so each kept parameter becomes one
      `key=value` field. */
  lemma BitcoinFields(amount: Option<Amount>, labelText: Option<string>, message: Option<string>)
    ensures Fields(BitcoinParams(amount, labelText, message)) == QueryFields(amount, labelText, message)
  {
    var pa, pl, pm := Param("amount", AmountText(amount)), Param("label", labelText), Param("message", message);
    assert forall i :: 0 <= i < |"amount"| ==> Unreserved("amount"[i]);
    assert forall i :: 0 <= i < |"label"| ==> Unreserved("label"[i]);
    assert forall i :: 0 <= i < |"message"| ==> Unreserved("message"[i]);
    ParamField("amount", AmountText(amount));
    ParamField("label", labelText);
    ParamField("message", message);
    FieldsAppend(pa + pl, pm);
    FieldsAppend(pa, pl);
  }

  /** Without any parameter the URI is the scheme and the address, with no `?`;
      with at least one, it is followed by `?` and a query whose `&`-separated
      fields are exactly the parameters that are not `None`, in the order amount,
      label, message, each as `key=` and its escaped value. An empty label is kept
      (as `label=`). */
  lemma BitcoinQuery(address: string, amount: Option<Amount>, labelText: Option<string>, message: Option<string>)
    ensures amount.None? && labelText.None? && message.None? ==>
              BitcoinUri(address, amount, labelText, message) == "bitcoin:" + address
    ensures amount.Some? || labelText.Some? || message.Some? ==>
              var query := UrlEncode(BitcoinParams(amount, labelText, message));
              && BitcoinUri(address, amount, labelText, message) == "bitcoin:" + address + "?" + query
              && Split(query, '&') == QueryFields(amount, labelText, message)
  {
    UrlEncodeSplit(BitcoinParams(amount, labelText, message));
    BitcoinFields(amount, labelText, message);
  }

  /** The URI is the bare address form exactly when every parameter is `None`. */
  lemma BitcoinQueryIff(address: string, amount: Option<Amount>, labelText: Option<string>, message: Option<string>)
    ensures BitcoinUri(address, amount, labelText, message) == "bitcoin:" + address
        <==> (amount.None? && labelText.None? && message.None?)
  {
    var params := BitcoinParams(amount, labelText, message);
    UrlEncodeSplit(params);
    var query := UrlEncode(params);
    if query != "" {
      assert |BitcoinUri(address, amount, labelText, message)| > |"bitcoin:" + address|;
    }
  }

  /** The URI for a given non-empty query text. */
  lemma UriOfQuery(address: string, amount: Option<Amount>, labelText: Option<string>,
                   message: Option<string>, fields: seq<string>)
    requires QueryFields(amount, labelText, message) == fields && |fields| > 0
    ensures BitcoinUri(address, amount, labelText, message) == "bitcoin:" + address + "?" + Join(fields, '&')
  {
    var params := BitcoinParams(amount, labelText, message);
    BitcoinFields(amount, labelText, message);
    assert |params| > 0;
    UrlEncodeSplit(params);
    assert UrlEncode(params) == Join(fields, '&');
  }

  /** An amount and a label written with letters, digits and `_.-~` only (as in
      the example of BIP 21, `amount=50&label=Luke-Jr`) appear in the URI as they
      are. */
  lemma BitcoinPlain(address: string, amount: Amount, labelText: string)
    requires forall i :: 0 <= i < |amount.text| ==> Unreserved(amount.text[i])
    requires forall i :: 0 <= i < |labelText| ==> Unreserved(labelText[i])
    ensures BitcoinUri(address, Some(amount), Some(labelText), None)
         == "bitcoin:" + address + "?" + (("amount=" + amount.text) + "&" + ("label=" + labelText))
  {
    var first, second := "amount=" + amount.text, "label=" + labelText;
    PlainFields(amount, labelText);
    UriOfQuery(address, Some(amount), Some(labelText), None, [first, second]);
    JoinTwo(first, second, '&');
  }

  lemma PlainFields(amount: Amount, labelText: string)
    requires forall i :: 0 <= i < |amount.text| ==> Unreserved(amount.text[i])
    requires forall i :: 0 <= i < |labelText| ==> Unreserved(labelText[i])
    ensures QueryFields(Some(amount), Some(labelText), None) == ["amount=" + amount.text, "label=" + labelText]
  {
    QuotePlusUnreserved(amount.text);
    QuotePlusUnreserved(labelText);
    assert "amount" + "=" == "amount=" && "label" + "=" == "label=";
    assert OptionalField("amount", Some(amount.text)) == ["amount=" + amount.text];
    assert OptionalField("label", Some(labelText)) == ["label=" + labelText];
  }

  lemma MessageSpaceFields(first: string, second: string)
    requires forall i :: 0 <= i < |first| ==> Unreserved(first[i])
    requires forall i :: 0 <= i < |second| ==> Unreserved(second[i])
    ensures QueryFields(None, Some(""), Some(first + " " + second)) == ["label=", "message=" + first + "+" + second]
  {
    var escaped := QuotePlus(first + " " + second);
    assert escaped == first + "+" + second by {
      QuotePlusUnreserved(first);
      QuotePlusUnreserved(second);
      QuotePlusAppend(first + " ", second);
      QuotePlusAppend(first, " ");
      assert QuotePlus(" ") == "+";
    }
    assert OptionalField("message", Some(first + " " + second)) == ["message=" + first + "+" + second] by {
      assert "message" + "=" == "message=";
      assert "message" + "=" + escaped == "message=" + first + "+" + second;
    }
    assert OptionalField("label", Some("")) == ["label="] by {
      assert QuotePlus("") == "";
      assert "label" + "=" + "" == "label=";
    }
    assert OptionalField("amount", AmountText(None)) == [];
  }

  /** A space in the message is written as `+`, and an empty label is kept (as
      `label=`). */
  lemma BitcoinMessageSpace(address: string, first: string, second: string)
    requires forall i :: 0 <= i < |first| ==> Unreserved(first[i])
    requires forall i :: 0 <= i < |second| ==> Unreserved(second[i])
    ensures BitcoinUri(address, None, Some(""), Some(first + " " + second))
         == "bitcoin:" + address + "?" + ("label=" + "&" + ("message=" + first + "+" + second))
  {
    var message := "message=" + first + "+" + second;
    MessageSpaceFields(first, second);
    UriOfQuery(address, None, Some(""), Some(first + " " + second), ["label=", message]);
    JoinTwo("label=", message, '&');
  }

  // ---------------------------------------------------------------- MECARD

  /** `generate_mecard_qr_code`'s payload; absent fields print as `None`. */
  function MeCardData(name: Option<string>, email: Option<string>, phone: Option<string>,
                      url: Option<string>): string
  {
    "MECARD:N:" + Format(name) + ";" + "EMAIL:" + Format(email) + ";" + "TEL:" + Format(phone) + ";"
      + "URL:" + Format(url) + ";" + ";"
  }

  /** The fields of a MECARD as `;` separates them. */
  function MeCardFields(name: Option<string>, email: Option<string>, phone: Option<string>,
                        url: Option<string>): (fields: seq<string>)
    ensures |fields| == 6
  {
    ["MECARD:N:" + Format(name), "EMAIL:" + Format(email), "TEL:" + Format(phone),
     "URL:" + Format(url), "", ""]
  }

  /** The payload is its fields joined by `;` (the last two empty, giving the
      closing `;;`); nothing is escaped, so splitting at `;` gives the six fields
      back exactly when no value holds a `;`. */
  lemma MeCardShape(name: Option<string>, email: Option<string>, phone: Option<string>, url: Option<string>)
    ensures MeCardData(name, email, phone, url) == Join(MeCardFields(name, email, phone, url), ';')
    ensures Free(MeCardFields(name, email, phone, url), ';') ==>
              Split(MeCardData(name, email, phone, url), ';') == MeCardFields(name, email, phone, url)
  {
    MeCardJoin(Format(name), Format(email), Format(phone), Format(url));
    if Free(MeCardFields(name, email, phone, url), ';') {
      SplitJoin(MeCardFields(name, email, phone, url), ';');
    }
  }

  /** `MeCardShape` over the values of the fields. */
  lemma MeCardJoin(n: string, e: string, t: string, u: string)
    ensures "MECARD:N:" + n + ";" + "EMAIL:" + e + ";" + "TEL:" + t + ";" + "URL:" + u + ";" + ";"
         == Join(["MECARD:N:" + n, "EMAIL:" + e, "TEL:" + t, "URL:" + u, "", ""], ';')
  {
    var fields := ["MECARD:N:" + n, "EMAIL:" + e, "TEL:" + t, "URL:" + u, "", ""];
    var d1 := "MECARD:N:" + n;
    assert Join(fields[..1], ';') == d1;
    var d2 := d1 + ";" + "EMAIL:" + e;
    assert Join(fields[..2], ';') == d2 by {
      JoinField(fields[..1], "EMAIL:", e, ';');
      assert fields[..2] == fields[..1] + ["EMAIL:" + e];
    }
    var d3 := d2 + ";" + "TEL:" + t;
    assert Join(fields[..3], ';') == d3 by {
      JoinField(fields[..2], "TEL:", t, ';');
      assert fields[..3] == fields[..2] + ["TEL:" + t];
    }
    var d4 := d3 + ";" + "URL:" + u;
    assert Join(fields[..4], ';') == d4 by {
      JoinField(fields[..3], "URL:", u, ';');
      assert fields[..4] == fields[..3] + ["URL:" + u];
    }
    assert Join(fields[..5], ';') == d4 + ";" by {
      JoinSnoc(fields[..4], "", ';');
      assert fields[..5] == fields[..4] + [""];
    }
    assert Join(fields, ';') == d4 + ";" + ";" by {
      JoinSnoc(fields[..5], "", ';');
      assert fields == fields[..5] + [""];
    }
  }

  /** Absent email, phone and URL print as the literal `None`. */
  lemma MeCardAbsent(name: string)
    ensures MeCardData(Some(name), None, None, None)
         == Join(["MECARD:N:" + name, "EMAIL:None", "TEL:None", "URL:None", "", ""], ';')
  {
    MeCardShape(Some(name), None, None, None);
    var six := MeCardFields(Some(name), None, None, None);
    assert six[1] == "EMAIL:None" && six[2] == "TEL:None" && six[3] == "URL:None";
  }

  /** A `;` inside a value is not escaped: it splits the field in two, so the
      payload no longer has six fields. */
  lemma MeCardUnescaped(a: string, b: string)
    requires ';' !in a && ';' !in b
    ensures Split(MeCardData(Some(a + ";" + b), None, None, None), ';')
         == ["MECARD:N:" + a, b, "EMAIL:None", "TEL:None", "URL:None", "", ""]
  {
    var seven := ["MECARD:N:" + a, b, "EMAIL:None", "TEL:None", "URL:None", "", ""];
    MeCardSplitName(a, b);
    assert Free(seven, ';');
    SplitJoin(seven, ';');
  }

  /** The name is written as it is, so its `;` becomes a field separator. */
  lemma MeCardSplitName(a: string, b: string)
    ensures MeCardData(Some(a + ";" + b), None, None, None)
         == Join(["MECARD:N:" + a, b, "EMAIL:None", "TEL:None", "URL:None", "", ""], ';')
  {
    var tail := ["EMAIL:None", "TEL:None", "URL:None", "", ""];
    var rest := Join(tail, ';');
    MeCardAbsent(a + ";" + b);
    assert ["MECARD:N:" + (a + ";" + b), "EMAIL:None", "TEL:None", "URL:None", "", ""]
        == ["MECARD:N:" + (a + ";" + b)] + tail;
    JoinCons("MECARD:N:" + (a + ";" + b), tail, ';');
    JoinCons(b, tail, ';');
    JoinCons("MECARD:N:" + a, [b] + tail, ';');
    assert ["MECARD:N:" + a] + ([b] + tail) == ["MECARD:N:" + a, b, "EMAIL:None", "TEL:None", "URL:None", "", ""];
    SeparatorInside("MECARD:N:", a, b, ';', rest);
  }

  // ---------------------------------------------------------------- vCard

  /** `generate_vcard_qr_code`'s payload; absent fields print as `None`. */
  function VCardData(name: Option<string>, displayname: Option<string>, email: Option<string>,
                     phone: Option<string>, org: Option<string>, address: Option<string>,
                     url: Option<string>): string
  {
    "BEGIN:VCARD" + "\n" + "VERSION:3.0" + "\n" + "N:" + Format(name) + "\n" + "FN:" + Format(displayname)
      + "\n" + "EMAIL:" + Format(email) + "\n" + "TEL:" + Format(phone) + "\n" + "ORG:" + Format(org)
      + "\n" + "ADR:" + Format(address) + "\n" + "URL:" + Format(url) + "\n" + "END:VCARD"
  }

  /** The ten lines: BEGIN, VERSION, N, FN, EMAIL, TEL, ORG, ADR, URL, END. */
  function VCardLines(name: Option<string>, displayname: Option<string>, email: Option<string>,
                      phone: Option<string>, org: Option<string>, address: Option<string>,
                      url: Option<string>): (lines: seq<string>)
    ensures |lines| == 10
  {
    ["BEGIN:VCARD", "VERSION:3.0", "N:" + Format(name), "FN:" + Format(displayname),
     "EMAIL:" + Format(email), "TEL:" + Format(phone), "ORG:" + Format(org),
     "ADR:" + Format(address), "URL:" + Format(url), "END:VCARD"]
  }

  /** The card is its ten lines joined by bare newlines, with no newline after
      `END:VCARD`; when no value holds a newline, splitting at newlines gives the
      ten lines back. */
  lemma VCardShape(name: Option<string>, displayname: Option<string>, email: Option<string>,
                   phone: Option<string>, org: Option<string>, address: Option<string>,
                   url: Option<string>)
    ensures var d := VCardData(name, displayname, email, phone, org, address, url);
      && d == Join(VCardLines(name, displayname, email, phone, org, address, url), '\n')
      && |d| >= 9 && d[|d| - 9..] == "END:VCARD"
    ensures Free(VCardLines(name, displayname, email, phone, org, address, url), '\n') ==>
              Split(VCardData(name, displayname, email, phone, org, address, url), '\n')
                == VCardLines(name, displayname, email, phone, org, address, url)
  {
    var lines := VCardLines(name, displayname, email, phone, org, address, url);
    VCardJoin(Format(name), Format(displayname), Format(email), Format(phone), Format(org),
              Format(address), Format(url));
    if Free(lines, '\n') {
      SplitJoin(lines, '\n');
    }
  }

  /** `VCardShape` over the values of the lines. */
  lemma VCardJoin(n: string, fn: string, e: string, t: string, o: string, a: string, u: string)
    ensures var d := "BEGIN:VCARD" + "\n" + "VERSION:3.0" + "\n" + "N:" + n + "\n" + "FN:" + fn
                     + "\n" + "EMAIL:" + e + "\n" + "TEL:" + t + "\n" + "ORG:" + o
                     + "\n" + "ADR:" + a + "\n" + "URL:" + u + "\n" + "END:VCARD";
      && d == Join(["BEGIN:VCARD", "VERSION:3.0", "N:" + n, "FN:" + fn, "EMAIL:" + e, "TEL:" + t,
                    "ORG:" + o, "ADR:" + a, "URL:" + u, "END:VCARD"], '\n')
      && |d| >= 9 && d[|d| - 9..] == "END:VCARD"
  {
    var lines := ["BEGIN:VCARD", "VERSION:3.0", "N:" + n, "FN:" + fn, "EMAIL:" + e, "TEL:" + t,
                  "ORG:" + o, "ADR:" + a, "URL:" + u, "END:VCARD"];
    var d6 := "BEGIN:VCARD" + "\n" + "VERSION:3.0" + "\n" + "N:" + n + "\n" + "FN:" + fn
              + "\n" + "EMAIL:" + e + "\n" + "TEL:" + t;
    assert Join(lines[..6], '\n') == d6 by {
      VCardOpening(n, fn, e, t);
      assert lines[..6] == ["BEGIN:VCARD", "VERSION:3.0", "N:" + n, "FN:" + fn, "EMAIL:" + e, "TEL:" + t];
    }
    var d7 := d6 + "\n" + "ORG:" + o;
    assert Join(lines[..7], '\n') == d7 by {
      JoinField(lines[..6], "ORG:", o, '\n');
      assert lines[..7] == lines[..6] + ["ORG:" + o];
    }
    var d8 := d7 + "\n" + "ADR:" + a;
    assert Join(lines[..8], '\n') == d8 by {
      JoinField(lines[..7], "ADR:", a, '\n');
      assert lines[..8] == lines[..7] + ["ADR:" + a];
    }
    var d9 := d8 + "\n" + "URL:" + u;
    assert Join(lines[..9], '\n') == d9 by {
      JoinField(lines[..8], "URL:", u, '\n');
      assert lines[..9] == lines[..8] + ["URL:" + u];
    }
    var d := d9 + "\n" + "END:VCARD";
    assert Join(lines, '\n') == d by {
      JoinSnoc(lines[..9], "END:VCARD", '\n');
      assert lines == lines[..9] + ["END:VCARD"];
    }
    assert d[|d| - 9..] == "END:VCARD";
  }

  /** The first six lines of a card. */
  lemma VCardOpening(n: string, fn: string, e: string, t: string)
    ensures Join(["BEGIN:VCARD", "VERSION:3.0", "N:" + n, "FN:" + fn, "EMAIL:" + e, "TEL:" + t], '\n')
         == "BEGIN:VCARD" + "\n" + "VERSION:3.0" + "\n" + "N:" + n + "\n" + "FN:" + fn
            + "\n" + "EMAIL:" + e + "\n" + "TEL:" + t
  {
    var lines := ["BEGIN:VCARD", "VERSION:3.0", "N:" + n, "FN:" + fn, "EMAIL:" + e, "TEL:" + t];
    var d2 := "BEGIN:VCARD" + "\n" + "VERSION:3.0";
    assert Join(lines[..2], '\n') == d2 by {
      JoinTwo("BEGIN:VCARD", "VERSION:3.0", '\n');
      assert lines[..2] == ["BEGIN:VCARD", "VERSION:3.0"];
    }
    var d3 := d2 + "\n" + "N:" + n;
    assert Join(lines[..3], '\n') == d3 by {
      JoinField(lines[..2], "N:", n, '\n');
      assert lines[..3] == lines[..2] + ["N:" + n];
    }
    var d4 := d3 + "\n" + "FN:" + fn;
    assert Join(lines[..4], '\n') == d4 by {
      JoinField(lines[..3], "FN:", fn, '\n');
      assert lines[..4] == lines[..3] + ["FN:" + fn];
    }
    var d5 := d4 + "\n" + "EMAIL:" + e;
    assert Join(lines[..5], '\n') == d5 by {
      JoinField(lines[..4], "EMAIL:", e, '\n');
      assert lines[..5] == lines[..4] + ["EMAIL:" + e];
    }
    assert Join(lines, '\n') == d5 + "\n" + "TEL:" + t by {
      JoinField(lines[..5], "TEL:", t, '\n');
      assert lines == lines[..5] + ["TEL:" + t];
    }
  }

  /** A card with only a name prints every other field as `None`. */
  lemma VCardAbsent(name: string)
    ensures var lines := VCardLines(Some(name), None, None, None, None, None, None);
      && lines[2] == "N:" + name
      && lines[3] == "FN:None" && lines[4] == "EMAIL:None" && lines[5] == "TEL:None"
      && lines[6] == "ORG:None" && lines[7] == "ADR:None" && lines[8] == "URL:None"
  {
  }
}
