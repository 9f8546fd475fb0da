/**
 * Decimal rendering of naturals, as Rust's `{}` formatting of an unsigned
 * integer produces it, with its inverse, and the splitting of a string at
 * a separator character.
 */
module Decimal {

  predicate IsDigit(ch: char) {
    '0' <= ch <= '9'
  }

  predicate IsDigits(s: string) {
    forall i :: 0 <= i < |s| ==> IsDigit(s[i])
  }

  function DigitChar(d: nat): (ch: char)
    requires d < 10
    ensures IsDigit(ch) && ch as int - '0' as int == d
  {
    ('0' as int + d) as char
  }

  /** The decimal digits of `n`, most significant first, with no leading zero. */
  function NatToString(n: nat): (s: string)
    ensures 1 <= |s| && IsDigits(s)
    ensures |s| > 1 ==> s[0] != '0'
  {
    if n < 10 then [DigitChar(n)] else NatToString(n / 10) + [DigitChar(n % 10)]
  }

  /** The number a string of decimal digits denotes. */
  function DigitsValue(s: string): nat
    requires IsDigits(s)
  {
    if s == [] then 0 else DigitsValue(s[..|s| - 1]) * 10 + (s[|s| - 1] as int - '0' as int)
  }

  /** Reading back the digits of `n` gives `n`. */
  lemma {:induction false} DigitsValueOfNatToString(n: nat)
    ensures DigitsValue(NatToString(n)) == n
  {
    if n >= 10 {
      var s := NatToString(n / 10);
      var t := s + [DigitChar(n % 10)];
      assert t[..|t| - 1] == s;
      DigitsValueOfNatToString(n / 10);
    }
  }

  /** Different numbers render as different strings. */
  lemma NatToStringInjective(m: nat, n: nat)
    ensures NatToString(m) == NatToString(n) ==> m == n
  {
    DigitsValueOfNatToString(m);
    DigitsValueOfNatToString(n);
  }

  lemma DigitsExclude(s: string, ch: char)
    requires IsDigits(s) && !IsDigit(ch)
    ensures ch !in s
  {
  }

  /** In `a + [sep] + r`, the first `sep` is the one after `a`. */
  lemma FirstSeparator(a: string, r: string, sep: char)
    requires sep !in a
    ensures forall i :: 0 <= i <= |a| ==> ((a + [sep] + r)[i] == sep <==> i == |a|)
  {
  }

  /**
   * When neither head contains `sep`, `a1 + [sep] + r1` and `a2 + [sep] + r2`
   * are equal only if the heads and the tails are.
   */
  lemma {:induction false} SplitAtSeparator(a1: string, r1: string, a2: string, r2: string, sep: char)
    requires sep !in a1 && sep !in a2
    ensures a1 + [sep] + r1 == a2 + [sep] + r2 <==> a1 == a2 && r1 == r2
  {
    var s1, s2 := a1 + [sep] + r1, a2 + [sep] + r2;
    if s1 == s2 {
      FirstSeparator(a1, r1, sep);
      FirstSeparator(a2, r2, sep);
      assert s1[|a1|] == sep && s2[|a2|] == sep;
      assert |a1| == |a2|;
      assert a1 == s1[..|a1|] && a2 == s2[..|a2|];
      assert r1 == s1[|a1| + 1..] && r2 == s2[|a2| + 1..];
    }
  }

  /** The pieces of `s` between occurrences of `sep` (`str::split`). */
  function SplitOn(s: string, sep: char): (parts: seq<string>)
    ensures 1 <= |parts|
  {
    if s == [] then [""]
    else
      var rest := SplitOn(s[1..], sep);
      if s[0] == sep then [""] + rest else [[s[0]] + rest[0]] + rest[1..]
  }

  /** A string without the separator is one piece. */
  lemma {:induction false} SplitOnWithoutSeparator(a: string, sep: char)
    requires sep !in a
    ensures SplitOn(a, sep) == [a]
  {
    if a != [] {
      SplitOnWithoutSeparator(a[1..], sep);
      assert [a[0]] + a[1..] == a;
    }
  }

  /** Splitting at the first separator gives the head, then the pieces of the rest. */
  lemma {:induction false} SplitOnFirstSeparator(a: string, r: string, sep: char)
    requires sep !in a
    ensures SplitOn(a + [sep] + r, sep) == [a] + SplitOn(r, sep)
  {
    var s := a + [sep] + r;
    if a == [] {
      assert s[1..] == r;
    } else {
      assert s[1..] == a[1..] + [sep] + r;
      SplitOnFirstSeparator(a[1..], r, sep);
      assert [a[0]] + a[1..] == a;
    }
  }
}
