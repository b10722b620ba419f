/** The Python string operations the package relies on: `str.split`, `str.join`,
    the `in` substring test, `str.startswith`, `str.lower`, and `str()` of an integer. */
module Text {

  /** Python's `s.split(sep)` for a one-character separator. */
  function Split(s: string, sep: char): (parts: seq<string>)
    ensures |parts| >= 1
    decreases |s|
  {
    if |s| == 0 then [""]
    else if s[0] == sep then [""] + Split(s[1..], sep)
    else
      var rest := Split(s[1..], sep);
      [[s[0]] + rest[0]] + rest[1..]
  }

  /** Python's `sep.join(parts)`. */
  function Join(parts: seq<string>, sep: char): string
  {
    if |parts| == 0 then ""
    else if |parts| == 1 then parts[0]
    else parts[0] + [sep] + Join(parts[1..], sep)
  }

  /** True iff no part contains the separator character. */
  predicate Free(parts: seq<string>, sep: char) {
    forall i :: 0 <= i < |parts| ==> sep !in parts[i]
  }

  lemma {:induction false} SplitWithout(a: string, sep: char)
    requires sep !in a
    ensures Split(a, sep) == [a]
    decreases |a|
  {
    if |a| > 0 {
      SplitWithout(a[1..], sep);
      assert [a[0]] + a[1..] == a;
    }
  }

  lemma {:induction false} SplitAfter(a: string, sep: char, b: string)
    requires sep !in a
    ensures Split(a + [sep] + b, sep) == [a] + Split(b, sep)
    decreases |a|
  {
    if |a| == 0 {
      assert a + [sep] + b == [sep] + b;
      assert ([sep] + b)[1..] == b;
    } else {
      var s := a + [sep] + b;
      assert s[1..] == a[1..] + [sep] + b;
      SplitAfter(a[1..], sep, b);
      assert [a[0]] + a[1..] == a;
    }
  }

  lemma JoinCons(part: string, rest: seq<string>, sep: char)
    requires |rest| >= 1
    ensures Join([part] + rest, sep) == part + [sep] + Join(rest, sep)
  {
    assert ([part] + rest)[1..] == rest;
  }

  lemma JoinTwo(first: string, second: string, sep: char)
    ensures Join([first, second], sep) == first + [sep] + second
  {
    assert [first, second][1..] == [second];
  }

  /** Joining one more part appends the separator and that part. */
  lemma {:induction false} JoinSnoc(parts: seq<string>, last: string, sep: char)
    requires |parts| >= 1
    ensures Join(parts + [last], sep) == Join(parts, sep) + [sep] + last
    decreases |parts|
  {
    if |parts| == 1 {
      assert parts + [last] == [parts[0], last];
      JoinTwo(parts[0], last, sep);
    } else {
      assert (parts + [last])[1..] == parts[1..] + [last];
      JoinSnoc(parts[1..], last, sep);
    }
  }

  /** Joining one more part that is a tag and a value. */
  lemma JoinField(parts: seq<string>, tag: string, value: string, sep: char)
    requires |parts| >= 1
    ensures Join(parts + [tag + value], sep) == Join(parts, sep) + [sep] + tag + value
  {
    JoinSnoc(parts, tag + value, sep);
    assert Join(parts, sep) + [sep] + (tag + value) == Join(parts, sep) + [sep] + tag + value;
  }

  /** A separator inside the last part reads as one more separator between parts. */
  lemma SeparatorInside(head: string, a: string, b: string, sep: char, rest: string)
    ensures head + (a + [sep] + b) + [sep] + rest == (head + a) + [sep] + (b + [sep] + rest)
  {
  }

  /** One step of unfolding a join from position `i`. */
  lemma JoinTail(parts: seq<string>, i: nat, sep: char)
    requires i < |parts|
    ensures Join(parts[i..], sep) == if i + 1 == |parts| then parts[i] else parts[i] + [sep] + Join(parts[i + 1..], sep)
  {
    if i + 1 < |parts| {
      assert parts[i..][1..] == parts[i + 1..];
    }
  }

  /** Splitting undoes joining when no part contains the separator. */
  lemma {:induction false} SplitJoin(parts: seq<string>, sep: char)
    requires |parts| >= 1 && Free(parts, sep)
    ensures Split(Join(parts, sep), sep) == parts
    decreases |parts|
  {
    if |parts| == 1 {
      SplitWithout(parts[0], sep);
    } else {
      SplitJoin(parts[1..], sep);
      SplitAfter(parts[0], sep, Join(parts[1..], sep));
      assert [parts[0]] + parts[1..] == parts;
    }
  }

  /** Lines each followed by the separator (the shape of a text whose every line
      ends in a newline). */
  function Terminated(lines: seq<string>, sep: char): string
    decreases |lines|
  {
    if |lines| == 0 then "" else lines[0] + [sep] + Terminated(lines[1..], sep)
  }

  lemma TerminatedCons(line: string, rest: seq<string>, sep: char)
    ensures Terminated([line] + rest, sep) == line + [sep] + Terminated(rest, sep)
  {
    assert ([line] + rest)[1..] == rest;
  }

  /** Terminating one more line appends that line and the separator. */
  lemma {:induction false} TerminatedSnoc(lines: seq<string>, last: string, sep: char)
    ensures Terminated(lines + [last], sep) == Terminated(lines, sep) + last + [sep]
    decreases |lines|
  {
    if |lines| == 0 {
      assert lines + [last] == [last];
      assert Terminated([last], sep) == last + [sep] + Terminated([], sep);
    } else {
      var rest := Terminated(lines[1..], sep);
      assert (lines + [last])[0] == lines[0];
      assert (lines + [last])[1..] == lines[1..] + [last];
      TerminatedSnoc(lines[1..], last, sep);
      assert lines[0] + [sep] + (rest + last + [sep]) == lines[0] + [sep] + rest + last + [sep];
    }
  }

  lemma {:induction false} TerminatedJoin(lines: seq<string>, sep: char)
    ensures Terminated(lines, sep) == Join(lines + [""], sep)
    decreases |lines|
  {
    if |lines| > 0 {
      TerminatedJoin(lines[1..], sep);
      assert (lines + [""])[1..] == lines[1..] + [""];
    }
  }

  /** Splitting a text of separator-terminated lines gives the lines back, followed
      by the empty text after the last separator. */
  lemma SplitTerminated(lines: seq<string>, sep: char)
    requires Free(lines, sep)
    ensures Split(Terminated(lines, sep), sep) == lines + [""]
  {
    TerminatedJoin(lines, sep);
    SplitJoin(lines + [""], sep);
  }

  /** `s.startswith(prefix)`. */
  predicate StartsWith(s: string, prefix: string) {
    |prefix| <= |s| && s[..|prefix|] == prefix
  }

  /** The substring test `key in s`, scanning left to right. */
  predicate Contains(s: string, key: string)
    decreases |s|
  {
    StartsWith(s, key) || (|s| > 0 && Contains(s[1..], key))
  }

  /** `key` occurs in `s` starting at index `i`. */
  predicate OccursAt(s: string, key: string, i: int) {
    0 <= i && i + |key| <= |s| && s[i..i + |key|] == key
  }

  /** `key in s` holds exactly when `key` occurs at some position of `s`. */
  lemma {:induction false} ContainsAt(s: string, key: string)
    ensures Contains(s, key) <==> exists i :: OccursAt(s, key, i)
    decreases |s|
  {
    if |s| > 0 {
      ContainsAt(s[1..], key);
      if StartsWith(s, key) {
        assert s[0..0 + |key|] == key;
        assert OccursAt(s, key, 0);
      }
      if Contains(s[1..], key) {
        var i :| OccursAt(s[1..], key, i);
        assert s[i + 1..i + 1 + |key|] == s[1..][i..i + |key|];
        assert OccursAt(s, key, i + 1);
      }
      if exists i :: OccursAt(s, key, i) {
        var i :| OccursAt(s, key, i);
        if i > 0 {
          assert s[1..][i - 1..i - 1 + |key|] == s[i..i + |key|];
          assert OccursAt(s[1..], key, i - 1);
        } else {
          assert StartsWith(s, key);
        }
      }
    } else {
      if exists i :: OccursAt(s, key, i) {
        var i :| OccursAt(s, key, i);
        assert |key| == 0 && s[..0] == key;
        assert StartsWith(s, key);
      }
      if Contains(s, key) {
        assert s[0..0 + |key|] == key;
        assert OccursAt(s, key, 0);
      }
    }
  }

  /** A text that is a piece of a longer text occurs in it. */
  lemma ContainsInfix(a: string, key: string, b: string)
    ensures Contains(a + key + b, key)
  {
    var s := a + key + b;
    assert OccursAt(s, key, |a|);
    ContainsAt(s, key);
  }

  /** A key holding a character the text lacks does not occur in it. */
  lemma MissingChar(s: string, key: string, k: nat)
    requires k < |key| && key[k] !in s
    ensures !Contains(s, key)
  {
    forall i | 0 <= i && i + |key| <= |s|
      ensures !OccursAt(s, key, i)
    {
      assert s[i..i + |key|][k] == s[i + k];
    }
    ContainsAt(s, key);
  }

  /** `str.lower()` on one character. Exact on ASCII, on U+0130 (which lowers to
      `i` followed by U+0307) and on the Kelvin sign U+212A (which lowers to `k`);
      every other character is kept. Python maps the remaining upper-case letters
      to other non-ASCII letters, which never creates or removes an occurrence of
      an ASCII key. */
  function LowerChar(c: char): string {
    if 'A' <= c <= 'Z' then [(c as int + 32) as char]
    else if c == 'İ' then "i̇"
    else if c == 'K' then "k"
    else [c]
  }

  /** `s.lower()`, character by character. */
  function Lower(s: string): string
    decreases |s|
  {
    if |s| == 0 then "" else LowerChar(s[0]) + Lower(s[1..])
  }

  lemma {:induction false} LowerAppend(a: string, b: string)
    ensures Lower(a + b) == Lower(a) + Lower(b)
    decreases |a|
  {
    if |a| > 0 {
      assert (a + b)[0] == a[0];
      assert (a + b)[1..] == a[1..] + b;
      LowerAppend(a[1..], b);
      calc {
        Lower(a + b);
        LowerChar(a[0]) + Lower(a[1..] + b);
        LowerChar(a[0]) + (Lower(a[1..]) + Lower(b));
        (LowerChar(a[0]) + Lower(a[1..])) + Lower(b);
      }
    } else {
      assert a + b == b;
    }
  }

  /** `lower()` of a text whose every character lowers to one character. */
  lemma {:induction false} LowerEach(s: string, t: string)
    requires |s| == |t|
    requires forall i :: 0 <= i < |s| ==> LowerChar(s[i]) == [t[i]]
    ensures Lower(s) == t
    decreases |s|
  {
    if |s| > 0 {
      LowerEach(s[1..], t[1..]);
      assert [t[0]] + t[1..] == t;
    }
  }

  /** Lower-casing never makes a `.`. */
  lemma {:induction false} LowerNoDot(s: string)
    requires '.' !in s
    ensures '.' !in Lower(s)
    decreases |s|
  {
    if |s| > 0 {
      assert s == [s[0]] + s[1..];
      LowerNoDot(s[1..]);
    }
  }

  /** A text with no ASCII upper-case letter and none of the two special characters
      is unchanged by `lower()`. */
  lemma {:induction false} LowerOfLower(s: string)
    requires forall i :: 0 <= i < |s| ==> !('A' <= s[i] <= 'Z') && s[i] != 'İ' && s[i] != 'K'
    ensures Lower(s) == s
    decreases |s|
  {
    if |s| > 0 {
      LowerOfLower(s[1..]);
      assert [s[0]] + s[1..] == s;
    }
  }

  predicate IsDigit(c: char) {
    '0' <= c <= '9'
  }

  function DigitChar(d: nat): char
    requires d < 10
  {
    ('0' as int + d) as char
  }

  /** `str(n)` for a non-negative integer: decimal digits, no leading zero. */
  function NatText(n: nat): (r: string)
    ensures |r| >= 1
    decreases n
  {
    if n < 10 then [DigitChar(n)] else NatText(n / 10) + [DigitChar(n % 10)]
  }

  /** `str(n)` for any integer. */
  function IntText(n: int): string {
    if n < 0 then "-" + NatText(-n) else NatText(n)
  }

  /** Reads a run of decimal digits back as a number (the inverse of `NatText`). */
  function ParseDigits(s: string): int
    decreases |s|
  {
    if |s| == 0 then 0 else ParseDigits(s[..|s| - 1]) * 10 + (s[|s| - 1] as int - '0' as int)
  }

  /** `str(n)` is made of digits only, has no leading zero, and reads back as `n`. */
  lemma {:induction false} NatTextRoundTrip(n: nat)
    ensures forall i :: 0 <= i < |NatText(n)| ==> IsDigit(NatText(n)[i])
    ensures NatText(n)[0] != '0' || n == 0
    ensures ParseDigits(NatText(n)) == n
    decreases n
  {
    if n >= 10 {
      NatTextRoundTrip(n / 10);
      var s := NatText(n);
      assert s[..|s| - 1] == NatText(n / 10);
    }
  }

  /** Distinct numbers print differently. */
  lemma NatTextInjective(m: nat, n: nat)
    requires NatText(m) == NatText(n)
    ensures m == n
  {
    NatTextRoundTrip(m);
    NatTextRoundTrip(n);
  }
}
