/** The parts of Python's `re` semantics that the validators' patterns rely on:
    `re.match` anchors only at the start, `$` (without MULTILINE) matches at the end
    or just before one final newline, and `re.IGNORECASE` on a `str` pattern. */
module Regex {
  import opened Python
  import opened Text

  /** The case-insensitive comparison key of one character under `re.IGNORECASE`.
      `re` compares the simple lower-case mapping of a character, and adds the
      extra equivalences i/U+0131, s/U+017F and k/U+212A. On the characters the
      validators' patterns contain (ASCII letters, digits and punctuation) two
      characters match each other iff their keys are equal. */
  function Fold(c: char): char {
    if 'A' <= c <= 'Z' then (c as int + 32) as char
    else if c == 'İ' || c == 'ı' then 'i'
    else if c == 'ſ' then 's'
    else if c == 'K' then 'k'
    else c
  }

  /** A character folds to a lower-case ASCII letter iff it is an ASCII letter or
      one of U+0130, U+0131, U+017F, U+212A; every other character folds to itself. */
  lemma FoldCases(c: char)
    ensures 'a' <= Fold(c) <= 'z' <==> ('a' <= c <= 'z' || 'A' <= c <= 'Z' || c in "İıſK")
    ensures !('a' <= Fold(c) <= 'z') ==> Fold(c) == c
  {
  }

  /** `Fold` applied to every character. */
  function FoldAll(s: string): (r: string)
    ensures |r| == |s|
    ensures forall i :: 0 <= i < |s| ==> r[i] == Fold(s[i])
    decreases |s|
  {
    if |s| == 0 then "" else [Fold(s[0])] + FoldAll(s[1..])
  }

  /** Text on which `Fold` changes nothing (no upper-case ASCII letter, none of
      U+0130, U+0131, U+017F, U+212A). */
  predicate Folded(s: string) {
    forall i :: 0 <= i < |s| ==> Fold(s[i]) == s[i]
  }

  /** Text with no upper-case ASCII letter and nothing beyond Latin-1 is folded. */
  lemma FoldedLatin(s: string)
    requires forall i :: 0 <= i < |s| ==> !('A' <= s[i] <= 'Z') && s[i] < '\U{100}'
    ensures Folded(s)
  {
  }

  lemma FoldedAppend(a: string, b: string)
    requires Folded(a) && Folded(b)
    ensures Folded(a + b)
  {
    forall i | 0 <= i < |a + b|
      ensures Fold((a + b)[i]) == (a + b)[i]
    {
      if i < |a| {
        assert (a + b)[i] == a[i];
      } else {
        assert (a + b)[i] == b[i - |a|];
      }
    }
  }

  lemma FoldAllFolded(s: string)
    requires Folded(s)
    ensures FoldAll(s) == s
  {
  }

  lemma FoldAllAppend(a: string, b: string)
    ensures FoldAll(a + b) == FoldAll(a) + FoldAll(b)
  {
    var l, r := FoldAll(a + b), FoldAll(a) + FoldAll(b);
    assert |l| == |r|;
    forall i | 0 <= i < |l|
      ensures l[i] == r[i]
    {
      if i < |a| {
        assert (a + b)[i] == a[i];
      } else {
        assert (a + b)[i] == b[i - |a|];
      }
    }
  }

  /** Only a newline folds to a newline. */
  lemma FoldNewline(c: char)
    ensures Fold(c) == '\n' <==> c == '\n'
  {
  }

  /** Case folding leaves a newline alone. */
  lemma FoldAllNewline(s: string)
    ensures FoldAll(s + "\n") == FoldAll(s) + "\n"
  {
    FoldAllAppend(s, "\n");
    var nl := FoldAll("\n");
    assert |nl| == 1 && nl[0] == Fold('\n');
  }

  /** ASCII upper-casing of one character (`str.upper` on ASCII). */
  function UpperChar(c: char): char {
    if 'a' <= c <= 'z' then (c as int - 32) as char else c
  }

  function Upper(s: string): (r: string)
    ensures |r| == |s|
    ensures forall i :: 0 <= i < |s| ==> r[i] == UpperChar(s[i])
    decreases |s|
  {
    if |s| == 0 then "" else [UpperChar(s[0])] + Upper(s[1..])
  }

  /** Changing the case of ASCII letters never changes what a pattern under
      `re.IGNORECASE` sees. */
  lemma FoldUpper(s: string)
    ensures FoldAll(Upper(s)) == FoldAll(s)
  {
    var a, b := FoldAll(Upper(s)), FoldAll(s);
    forall i | 0 <= i < |s|
      ensures a[i] == b[i]
    {
      var c := s[i];
      if 'a' <= c <= 'z' {
        assert UpperChar(c) == (c as int - 32) as char;
      }
    }
  }

  /** What may follow the last consumed character for `$` to match: nothing, or
      one final newline. */
  predicate AtDollar(rest: string) {
    rest == "" || rest == "\n"
  }

  /** `s` with the literal `lit` removed from its front, if it starts with it. */
  function Strip(s: string, lit: string): (r: Option<string>)
    ensures r.Some? <==> StartsWith(s, lit)
    ensures r.Some? ==> s == lit + r.value
  {
    if StartsWith(s, lit) then Some(s[|lit|..]) else None
  }

  /** The text `$` sees as the end of the subject: `s` without its one final
      newline, if it has one. */
  function BeforeDollar(s: string): (b: string)
    ensures s == b || s == b + "\n"
  {
    if |s| > 0 && s[|s| - 1] == '\n' then s[..|s| - 1] else s
  }

  /** A subject built from a body that does not itself end in a newline, with or
      without one final newline, has that body before `$`. */
  lemma BeforeDollarOf(b: string, newline: bool)
    requires |b| == 0 || b[|b| - 1] != '\n'
    ensures BeforeDollar(b + (if newline then "\n" else "")) == b
  {
    if newline {
      var s := b + "\n";
      assert s[..|s| - 1] == b;
    } else {
      assert b + "" == b;
    }
  }
}
