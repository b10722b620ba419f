/** `urllib.parse.quote_plus` and `urllib.parse.urlencode` as the Bitcoin payload
    uses them: UTF-8 encoding, percent-escapes in upper-case hexadecimal, a space
    written as `+`, and letters, digits and `_.-~` kept as they are. */
module UrlEncoding {
  import opened Text

  /** The characters `quote_plus` never escapes. */
  predicate Unreserved(c: char) {
    'A' <= c <= 'Z' || 'a' <= c <= 'z' || '0' <= c <= '9' || c == '_' || c == '.' || c == '-' || c == '~'
  }

  /** The UTF-8 encoding of one character. */
  function Utf8(c: char): (bytes: seq<int>)
    ensures 1 <= |bytes| <= 4
    ensures forall i :: 0 <= i < |bytes| ==> 0 <= bytes[i] < 256
  {
    var n := c as int;
    if n < 0x80 then [n]
    else if n < 0x800 then [0xC0 + n / 0x40, 0x80 + n % 0x40]
    else if n < 0x1_0000 then [0xE0 + n / 0x1000, 0x80 + (n / 0x40) % 0x40, 0x80 + n % 0x40]
    else [0xF0 + n / 0x4_0000, 0x80 + (n / 0x1000) % 0x40, 0x80 + (n / 0x40) % 0x40, 0x80 + n % 0x40]
  }

  function HexDigit(d: int): (c: char)
    requires 0 <= d < 16
    ensures Unreserved(c)
  {
    if d < 10 then ('0' as int + d) as char else ('A' as int + d - 10) as char
  }

  /** `%XX` for one byte. */
  function Escape(b: int): (r: string)
    requires 0 <= b < 256
    ensures |r| == 3 && r[0] == '%' && Unreserved(r[1]) && Unreserved(r[2])
  {
    "%" + [HexDigit(b / 16), HexDigit(b % 16)]
  }

  function EscapeAll(bytes: seq<int>): (r: string)
    requires forall i :: 0 <= i < |bytes| ==> 0 <= bytes[i] < 256
    ensures |r| == 3 * |bytes|
    ensures forall i :: 0 <= i < |r| ==> Unreserved(r[i]) || r[i] == '%'
    decreases |bytes|
  {
    if |bytes| == 0 then "" else Escape(bytes[0]) + EscapeAll(bytes[1..])
  }

  /** What `quote_plus` writes for one character. */
  function QuoteChar(c: char): (r: string)
    ensures |r| >= 1
    ensures forall i :: 0 <= i < |r| ==> Unreserved(r[i]) || r[i] == '+' || r[i] == '%'
  {
    if Unreserved(c) then [c] else if c == ' ' then "+" else EscapeAll(Utf8(c))
  }

  /** `quote_plus(s)`. */
  function QuotePlus(s: string): (r: string)
    ensures forall i :: 0 <= i < |r| ==> Unreserved(r[i]) || r[i] == '+' || r[i] == '%'
    decreases |s|
  {
    if |s| == 0 then "" else QuoteChar(s[0]) + QuotePlus(s[1..])
  }

  /** Text made only of unreserved characters is kept as it is. */
  lemma {:induction false} QuotePlusUnreserved(s: string)
    requires forall i :: 0 <= i < |s| ==> Unreserved(s[i])
    ensures QuotePlus(s) == s
    decreases |s|
  {
    if |s| > 0 {
      QuotePlusUnreserved(s[1..]);
      assert [s[0]] + s[1..] == s;
    }
  }

  /** Escaping works character by character, so it distributes over concatenation. */
  lemma {:induction false} QuotePlusAppend(a: string, b: string)
    ensures QuotePlus(a + b) == QuotePlus(a) + QuotePlus(b)
    decreases |a|
  {
    if |a| > 0 {
      assert (a + b)[0] == a[0];
      assert (a + b)[1..] == a[1..] + b;
      QuotePlusAppend(a[1..], b);
    } else {
      assert a + b == b;
    }
  }

  /** An escaped text never contains the separators of a URL query (`&`, `=`), nor
      `?` or `#`. */
  lemma QuotePlusSeparators(s: string)
    ensures '&' !in QuotePlus(s) && '=' !in QuotePlus(s) && '?' !in QuotePlus(s) && '#' !in QuotePlus(s)
  {
  }

  /** A character is escaped to nothing shorter than itself, so escaping keeps the
      empty text empty and a non-empty text non-empty. */
  lemma {:induction false} QuotePlusEmpty(s: string)
    ensures QuotePlus(s) == "" <==> s == ""
  {
  }

  /** One `key=value` field of `urlencode`. */
  function Field(key: string, value: string): string {
    QuotePlus(key) + "=" + QuotePlus(value)
  }

  function Fields(pairs: seq<(string, string)>): (fields: seq<string>)
    ensures |fields| == |pairs|
    ensures forall i :: 0 <= i < |pairs| ==> fields[i] == Field(pairs[i].0, pairs[i].1)
    decreases |pairs|
  {
    if |pairs| == 0 then [] else [Field(pairs[0].0, pairs[0].1)] + Fields(pairs[1..])
  }

  lemma {:induction false} FieldsAppend(a: seq<(string, string)>, b: seq<(string, string)>)
    ensures Fields(a + b) == Fields(a) + Fields(b)
    decreases |a|
  {
    if |a| == 0 {
      assert a + b == b;
    } else {
      assert (a + b)[0] == a[0];
      assert (a + b)[1..] == a[1..] + b;
      FieldsAppend(a[1..], b);
    }
  }

  /** `urlencode(pairs)`: the fields joined by `&`, in order. */
  function UrlEncode(pairs: seq<(string, string)>): string {
    Join(Fields(pairs), '&')
  }

  /** A field splits at `=` into the escaped key and the escaped value. */
  lemma FieldSplit(key: string, value: string)
    ensures Split(Field(key, value), '=') == [QuotePlus(key), QuotePlus(value)]
  {
    QuotePlusSeparators(key);
    QuotePlusSeparators(value);
    var parts := [QuotePlus(key), QuotePlus(value)];
    assert Join(parts, '=') == Field(key, value);
    SplitJoin(parts, '=');
  }

  /** The query string is empty iff there are no pairs; otherwise splitting it at
      `&` gives back exactly one field per pair, in order. */
  lemma UrlEncodeSplit(pairs: seq<(string, string)>)
    ensures UrlEncode(pairs) == "" <==> |pairs| == 0
    ensures |pairs| > 0 ==> Split(UrlEncode(pairs), '&') == Fields(pairs)
  {
    var fields := Fields(pairs);
    forall i | 0 <= i < |fields|
      ensures '&' !in fields[i]
    {
      QuotePlusSeparators(pairs[i].0);
      QuotePlusSeparators(pairs[i].1);
    }
    if |pairs| > 0 {
      SplitJoin(fields, '&');
      assert fields[0] == Field(pairs[0].0, pairs[0].1);
      JoinNonEmpty(fields, '&');
    }
  }

  /** Joining fields that each contain at least one character gives a non-empty
      text. */
  lemma JoinNonEmpty(parts: seq<string>, sep: char)
    requires |parts| > 0 && |parts[0]| > 0
    ensures |Join(parts, sep)| > 0
  {
  }
}
