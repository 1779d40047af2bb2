/**
 * The Python string operations the downloader relies on (`str.isalnum`,
 * `str.lower`, `in`, `str.split`, `str.replace`, `str.strip`, `int()` and
 * `f"{n}"` / `f"{n:02d}"` formatting), restricted to ASCII.
 */
module Text {
  import opened Wrappers

  predicate IsDigit(c: char) { '0' <= c <= '9' }

  predicate IsAlnum(c: char) { IsDigit(c) || 'a' <= c <= 'z' || 'A' <= c <= 'Z' }

  /** The ASCII characters `str.strip()` and `int()` skip as white space. */
  predicate IsSpace(c: char) { c == ' ' || '\t' <= c <= '\r' || '\U{1C}' <= c <= '\U{1F}' }

  predicate AllDigits(s: string) { forall i :: 0 <= i < |s| ==> IsDigit(s[i]) }

  // ---------------------------------------------------------------- lower

  function LowerChar(c: char): char {
    if 'A' <= c <= 'Z' then (c as int + 32) as char else c
  }

  function Lower(s: string): (r: string)
    ensures |r| == |s|
  {
    seq(|s|, i requires 0 <= i < |s| => LowerChar(s[i]))
  }

  lemma LowerConcat(a: string, b: string)
    ensures Lower(a + b) == Lower(a) + Lower(b)
  {
    assert forall i :: 0 <= i < |a + b| ==> Lower(a + b)[i] == (Lower(a) + Lower(b))[i];
  }

  // ---------------------------------------------------------------- `sub in s`

  predicate OccursAt(s: string, sub: string, i: nat) {
    i + |sub| <= |s| && s[i..i + |sub|] == sub
  }

  /** Python's substring test `sub in s`. */
  predicate Contains(s: string, sub: string) {
    exists i :: 0 <= i <= |s| && OccursAt(s, sub, i)
  }

  lemma ContainsMiddle(a: string, sub: string, b: string)
    ensures Contains(a + sub + b, sub)
  {
    var s := a + sub + b;
    assert s[|a|..|a| + |sub|] == sub;
    assert OccursAt(s, sub, |a|);
  }

  predicate EndsWith(s: string, suffix: string) {
    |suffix| <= |s| && s[|s| - |suffix|..] == suffix
  }

  // ---------------------------------------------------------------- str.replace(c, '')

  /** `s.replace(c, '')`: every occurrence of `c` removed. */
  function RemoveAll(s: string, c: char): (r: string)
    ensures c !in r
  {
    if s == [] then []
    else (if s[0] == c then [] else [s[0]]) + RemoveAll(s[1..], c)
  }

  lemma {:induction false} RemoveAllAbsent(s: string, c: char)
    requires c !in s
    ensures RemoveAll(s, c) == s
  {
    if s != [] {
      RemoveAllAbsent(s[1..], c);
    }
  }

  lemma {:induction false} RemoveAllConcat(a: string, b: string, c: char)
    ensures RemoveAll(a + b, c) == RemoveAll(a, c) + RemoveAll(b, c)
  {
    if a == [] {
      assert a + b == b;
    } else {
      var ab := a + b;
      assert ab[0] == a[0] && ab[1..] == a[1..] + b;
      RemoveAllConcat(a[1..], b, c);
      var head := if a[0] == c then [] else [a[0]];
      assert RemoveAll(ab, c) == head + RemoveAll(a[1..] + b, c);
      assert RemoveAll(a, c) == head + RemoveAll(a[1..], c);
    }
  }

  // ---------------------------------------------------------------- str.split(sep)

  /** `s.split(sep)` with an explicit one-character separator: k separators give k + 1 parts. */
  function Split(s: string, sep: char): (parts: seq<string>)
    ensures |parts| >= 1
  {
    if s == [] then [[]]
    else
      var rest := Split(s[1..], sep);
      if s[0] == sep then [[]] + rest else [[s[0]] + rest[0]] + rest[1..]
  }

  lemma {:induction false} SplitNoSeparator(s: string, sep: char)
    requires sep !in s
    ensures Split(s, sep) == [s]
  {
    if s != [] {
      SplitNoSeparator(s[1..], sep);
      assert [s[0]] + s[1..] == s;
    }
  }

  lemma {:induction false} SplitAtSeparator(a: string, sep: char, b: string)
    requires sep !in a
    ensures Split(a + [sep] + b, sep) == [a] + Split(b, sep)
  {
    if a == [] {
      assert a + [sep] + b == [sep] + b;
      assert ([sep] + b)[1..] == b;
    } else {
      assert (a + [sep] + b)[1..] == a[1..] + [sep] + b;
      SplitAtSeparator(a[1..], sep, b);
      assert [a[0]] + a[1..] == a;
    }
  }

  lemma {:induction false} SplitPartsHaveNoSeparator(s: string, sep: char)
    ensures forall k :: 0 <= k < |Split(s, sep)| ==> sep !in Split(s, sep)[k]
  {
    if s != [] {
      SplitPartsHaveNoSeparator(s[1..], sep);
    }
  }

  /** `s.split(sep)[-1]`. */
  function LastPart(s: string, sep: char): (r: string)
    ensures sep !in r
  {
    SplitPartsHaveNoSeparator(s, sep);
    var parts := Split(s, sep);
    parts[|parts| - 1]
  }

  /** `s.split(sep)[0]`. */
  function FirstPart(s: string, sep: char): (r: string)
    ensures sep !in r
  {
    SplitPartsHaveNoSeparator(s, sep);
    Split(s, sep)[0]
  }

  /** `s.split(sep)[0]` is the longest prefix of `s` without `sep`. */
  lemma {:induction false} FirstPartIsPrefix(s: string, sep: char)
    ensures |FirstPart(s, sep)| <= |s|
    ensures s[..|FirstPart(s, sep)|] == FirstPart(s, sep)
    ensures |FirstPart(s, sep)| < |s| ==> s[|FirstPart(s, sep)|] == sep
  {
    var f := FirstPart(s, sep);
    if s != [] && s[0] == sep {
      assert f == [];
    } else if s != [] {
      FirstPartIsPrefix(s[1..], sep);
      var g := FirstPart(s[1..], sep);
      assert f == [s[0]] + g;
      assert s[..|f|] == [s[0]] + s[1..][..|g|];
      if |f| < |s| {
        assert s[|f|] == s[1..][|g|];
      }
    }
  }

  // ---------------------------------------------------------------- integers to text

  function DigitChar(d: nat): char
    requires d < 10
  {
    ('0' as int + d) as char
  }

  /** `f"{n}"` for n >= 0. */
  function NatToString(n: nat): (s: string)
    ensures |s| >= 1 && AllDigits(s)
  {
    if n < 10 then [DigitChar(n)] else NatToString(n / 10) + [DigitChar(n % 10)]
  }

  /** `f"{i}"` for any int. */
  function IntToString(i: int): string {
    if i < 0 then "-" + NatToString(-i) else NatToString(i)
  }

  /** `f"{n:02d}"` for n >= 0. */
  function Pad2(n: nat): (s: string)
    ensures |s| >= 2 && AllDigits(s)
  {
    if n < 10 then "0" + NatToString(n) else NatToString(n)
  }

  // ---------------------------------------------------------------- int(text)

  function TrimStart(s: string): string {
    if s != [] && IsSpace(s[0]) then TrimStart(s[1..]) else s
  }

  function TrimEnd(s: string): string {
    if s != [] && IsSpace(s[|s| - 1]) then TrimEnd(s[..|s| - 1]) else s
  }

  function Strip(s: string): string {
    TrimEnd(TrimStart(s))
  }

  function DigitsValue(s: string): nat
    requires AllDigits(s)
  {
    if s == [] then 0 else DigitsValue(s[..|s| - 1]) * 10 + (s[|s| - 1] as int - '0' as int)
  }

  /**
   * Python's `int(text)`: white space around an optional sign and at least
   * one decimal digit; `None` where Python raises `ValueError`.
   */
  function ParseInt(s: string): Option<int> {
    var t := Strip(s);
    if t != [] && (t[0] == '+' || t[0] == '-') then
      if |t| > 1 && AllDigits(t[1..]) then
        var magnitude: int := DigitsValue(t[1..]);
        Some(if t[0] == '-' then -magnitude else magnitude)
      else None
    else if t != [] && AllDigits(t) then Some(DigitsValue(t))
    else None
  }

  lemma {:induction false} DigitsValueOfNat(n: nat)
    ensures DigitsValue(NatToString(n)) == n
  {
    if n >= 10 {
      var s := NatToString(n);
      assert s[..|s| - 1] == NatToString(n / 10);
      DigitsValueOfNat(n / 10);
    }
  }

  /** Text that neither starts nor ends with white space is left as it is by `strip()`. */
  lemma StripUnchanged(s: string)
    requires s != [] && !IsSpace(s[0]) && !IsSpace(s[|s| - 1])
    ensures Strip(s) == s
  {
    assert TrimStart(s) == s;
    assert TrimEnd(s) == s;
  }

  /** `int('-' + digits)` is the negated number. */
  lemma ParseNegative(n: nat)
    requires n > 0
    ensures ParseInt("-" + NatToString(n)) == Some(-(n as int))
  {
    var digits := NatToString(n);
    var s := "-" + digits;
    assert s[1..] == digits;
    assert s[|s| - 1] == digits[|digits| - 1];
    StripUnchanged(s);
    DigitsValueOfNat(n);
  }

  lemma StripDigits(s: string)
    requires s != [] && AllDigits(s)
    ensures Strip(s) == s
  {
  }

  /** Rendering a natural number and reading it back with `int()` gives the number. */
  lemma ParseNatToString(n: nat)
    ensures ParseInt(NatToString(n)) == Some(n)
  {
    var s := NatToString(n);
    StripDigits(s);
    DigitsValueOfNat(n);
  }

  lemma ParsePad2(n: nat)
    ensures ParseInt(Pad2(n)) == Some(n)
  {
    var s := Pad2(n);
    StripDigits(s);
    if n < 10 {
      assert s == [DigitChar(0), DigitChar(n)];
      assert s[..1] == [DigitChar(0)];
      assert DigitsValue(s[..1]) == 0;
    } else {
      ParseNatToString(n);
    }
  }
}
