/**
 * Decimal rendering of natural numbers, as Python's `str` writes a
 * non-negative `int`, with its inverse. Account numbers are such strings.
 */
module Decimal {

  predicate IsDigit(c: char) {
    '0' <= c <= '9'
  }

  /** Every character of `s` is a decimal digit. */
  predicate IsNumeral(s: string) {
    forall i :: 0 <= i < |s| ==> IsDigit(s[i])
  }

  function Pow10(k: nat): (p: nat)
    ensures p >= 1
  {
    if k == 0 then 1 else 10 * Pow10(k - 1)
  }

  function DigitValue(c: char): (d: nat)
    requires IsDigit(c)
    ensures d < 10
  {
    c as int - '0' as int
  }

  function DigitChar(d: nat): (c: char)
    requires d < 10
    ensures IsDigit(c) && DigitValue(c) == d
  {
    ('0' as int + d) as char
  }

  /** `str(n)` for a non-negative integer `n`: shortest decimal form. */
  function Show(n: nat): (s: string)
    ensures |s| >= 1 && IsNumeral(s)
    ensures s[0] == '0' <==> n == 0
    decreases n
  {
    if n < 10 then [DigitChar(n)] else Show(n / 10) + [DigitChar(n % 10)]
  }

  /** The number a string of decimal digits denotes. */
  function Value(s: string): nat
    requires IsNumeral(s)
  {
    if s == [] then 0 else 10 * Value(s[..|s| - 1]) + DigitValue(s[|s| - 1])
  }

  /** Reading back what `Show` wrote gives the number again. */
  lemma {:induction false} ValueShow(n: nat)
    ensures Value(Show(n)) == n
  {
    if n >= 10 {
      var s := Show(n);
      assert s[..|s| - 1] == Show(n / 10);
      ValueShow(n / 10);
    }
  }

  /** Distinct numbers are shown differently. */
  lemma ShowInjective(m: nat, n: nat)
    requires Show(m) == Show(n)
    ensures m == n
  {
    ValueShow(m);
    ValueShow(n);
  }

  /** A number with `k` decimal digits is shown with exactly `k` characters. */
  lemma {:induction false} ShowLength(n: nat, k: nat)
    requires k >= 1 && Pow10(k - 1) <= n < Pow10(k)
    ensures |Show(n)| == k
  {
    if k > 1 {
      assert Pow10(k - 1) == 10 * Pow10(k - 2);
      assert Pow10(k - 2) <= n / 10 < Pow10(k - 1);
      ShowLength(n / 10, k - 1);
    }
  }

  /** A numeral of `|s|` digits denotes less than `10^|s|`. */
  lemma {:induction false} ValueBelow(s: string)
    requires IsNumeral(s)
    ensures Value(s) < Pow10(|s|)
  {
    if s != [] {
      ValueBelow(s[..|s| - 1]);
    }
  }

  /** A numeral without a leading zero denotes at least `10^(|s|-1)`. */
  lemma {:induction false} ValueAbove(s: string)
    requires |s| >= 1 && IsNumeral(s) && s[0] != '0'
    ensures Pow10(|s| - 1) <= Value(s)
  {
    if |s| > 1 {
      var p := s[..|s| - 1];
      assert p[0] == s[0];
      ValueAbove(p);
    }
  }

  /** A numeral without a leading zero is the shown form of its value. */
  lemma {:induction false} ShowValue(s: string)
    requires |s| >= 1 && IsNumeral(s)
    requires s[0] != '0' || |s| == 1
    ensures Show(Value(s)) == s
  {
    var p, c := s[..|s| - 1], s[|s| - 1];
    if |s| == 1 {
      assert Value(s) == DigitValue(c);
      assert ('0' as int + (c as int - '0' as int)) as char == c;
      assert s == [c];
    } else {
      assert p[0] == s[0];
      ValueAbove(p);
      ShowValue(p);
      var n := Value(s);
      assert n == 10 * Value(p) + DigitValue(c);
      assert n / 10 == Value(p) && n % 10 == DigitValue(c);
      assert ('0' as int + (c as int - '0' as int)) as char == c;
      assert s == p + [c];
    }
  }
}
