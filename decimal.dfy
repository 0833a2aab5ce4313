/**
 * Decimal rendering of a `usize`, as the `{}` format specifier produces it
 * inside the `Debug` printers of the index types.
 */
module Decimal {
  predicate IsDigit(c: char)
  {
    '0' <= c <= '9'
  }

  predicate AllDigits(s: string)
  {
    forall k :: 0 <= k < |s| ==> IsDigit(s[k])
  }

  /** What `{}` prints for a number: at least one digit, no leading zero. */
  predicate IsCanonical(s: string)
  {
    |s| >= 1 && AllDigits(s) && (|s| > 1 ==> s[0] != '0')
  }

  function DigitValue(c: char): (d: nat)
    requires IsDigit(c)
    ensures d < 10
  {
    c as int - '0' as int
  }

  function DigitChar(d: nat): (c: char)
    requires d < 10
    ensures IsDigit(c) && DigitValue(c) == d
  {
    ('0' as int + d) as char
  }

  /** The digits of `n`, most significant first. */
  function Digits(n: nat): (s: string)
    ensures IsCanonical(s)
    ensures |s| == 1 <==> n < 10
  {
    if n < 10 then [DigitChar(n)] else Digits(n / 10) + [DigitChar(n % 10)]
  }

  /** Reads a digit string back as a number. */
  function Value(s: string): nat
    requires AllDigits(s)
  {
    if s == [] then 0 else Value(s[..|s| - 1]) * 10 + DigitValue(s[|s| - 1])
  }

  /** Printing then reading gives the number back. */
  lemma {:induction false} ValueOfDigits(n: nat)
    ensures Value(Digits(n)) == n
  {
    var s := Digits(n);
    if n >= 10 {
      assert s[..|s| - 1] == Digits(n / 10);
      ValueOfDigits(n / 10);
    }
  }

  /** A canonical digit string with a non-zero leading digit reads as a positive number. */
  lemma {:induction false} ValuePositive(s: string)
    requires IsCanonical(s) && s[0] != '0'
    ensures Value(s) > 0
  {
    if |s| > 1 {
      ValuePositive(s[..|s| - 1]);
    }
  }

  /** Reading then printing gives the string back: `Digits` is the only
    * spelling `{}` ever produces for a number. */
  lemma {:induction false} DigitsOfValue(s: string)
    requires IsCanonical(s)
    ensures Digits(Value(s)) == s
  {
    if |s| > 1 {
      var p := s[..|s| - 1];
      assert IsCanonical(p);
      ValuePositive(p);
      DigitsOfValue(p);
      var n := Value(s);
      assert n / 10 == Value(p) && n % 10 == DigitValue(s[|s| - 1]);
      assert s == p + [s[|s| - 1]];
    }
  }

  /** Distinct numbers print differently. */
  lemma DigitsInjective(m: nat, n: nat)
    requires Digits(m) == Digits(n)
    ensures m == n
  {
    ValueOfDigits(m);
    ValueOfDigits(n);
  }
}
