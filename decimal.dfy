/**
 * Decimal rendering of natural numbers, as Python's format spec `04d` does it,
 * and its inverse, so that zero-padded names can be told apart.
 */
module Decimal {

  predicate IsDigit(c: char) { '0' <= c <= '9' }

  predicate AllDigits(s: string) { forall i :: 0 <= i < |s| ==> IsDigit(s[i]) }

  function DigitChar(d: nat): (c: char)
    requires d < 10
    ensures IsDigit(c) && (c as int) - ('0' as int) == d
  {
    (('0' as int) + d) as char
  }

  /** The shortest decimal rendering of n (no leading zeros). */
  function Digits(n: nat): (s: string)
    ensures 1 <= |s| && AllDigits(s)
  {
    if n < 10 then [DigitChar(n)] else Digits(n / 10) + [DigitChar(n % 10)]
  }

  /** The number a string of digits denotes. */
  function Value(s: string): nat
    requires AllDigits(s)
  {
    if s == [] then 0
    else Value(s[..|s| - 1]) * 10 + ((s[|s| - 1] as int) - ('0' as int))
  }

  lemma {:induction false} ValueOfDigits(n: nat)
    ensures Value(Digits(n)) == n
  {
    if n >= 10 {
      var s := Digits(n);
      assert s[..|s| - 1] == Digits(n / 10);
      ValueOfDigits(n / 10);
    }
  }

  function Zeros(k: nat): (s: string)
    ensures |s| == k && AllDigits(s)
  {
    if k == 0 then "" else "0" + Zeros(k - 1)
  }

  /** Leading zeros do not change the number a digit string denotes. */
  lemma {:induction false} ValueIgnoresZeros(k: nat, s: string)
    requires AllDigits(s)
    ensures Value(Zeros(k) + s) == Value(s)
  {
    var t := Zeros(k) + s;
    if s == [] {
      assert t == Zeros(k);
      ZerosAreZero(k);
    } else {
      assert t[..|t| - 1] == Zeros(k) + s[..|s| - 1];
      assert t[|t| - 1] == s[|s| - 1];
      ValueIgnoresZeros(k, s[..|s| - 1]);
    }
  }

  lemma {:induction false} ZerosAreZero(k: nat)
    ensures Value(Zeros(k)) == 0
  {
    if k > 0 {
      var z := Zeros(k);
      assert z == Zeros(k - 1) + "0" by { ZerosShift(k); }
      assert z[..|z| - 1] == Zeros(k - 1);
      ZerosAreZero(k - 1);
    }
  }

  lemma {:induction false} ZerosShift(k: nat)
    requires k > 0
    ensures Zeros(k) == Zeros(k - 1) + "0"
  {
    if k > 1 {
      ZerosShift(k - 1);
    }
  }

  /** n in decimal, left-padded with zeros to at least width digits. */
  function Padded(n: nat, width: nat): (s: string)
    ensures AllDigits(s)
    ensures |s| == if |Digits(n)| >= width then |Digits(n)| else width
  {
    var d := Digits(n);
    if |d| >= width then d else Zeros(width - |d|) + d
  }

  /** Padding loses nothing: the number is recovered from its rendering. */
  lemma {:induction false} PaddedValue(n: nat, width: nat)
    ensures Value(Padded(n, width)) == n
  {
    var d := Digits(n);
    ValueOfDigits(n);
    if |d| < width {
      assert Padded(n, width) == Zeros(width - |d|) + d;
      ValueIgnoresZeros(width - |d|, d);
    } else {
      assert Padded(n, width) == d;
    }
  }

  lemma PaddedInjective(m: nat, n: nat, width: nat)
    requires Padded(m, width) == Padded(n, width)
    ensures m == n
  {
    PaddedValue(m, width);
    PaddedValue(n, width);
  }

  lemma PaddedOne()
    ensures Padded(1, 4) == "0001"
  {
    assert Digits(1) == "1";
    ZerosThree();
  }

  lemma PaddedTwelve()
    ensures Padded(12, 4) == "0012"
  {
    assert Digits(12) == Digits(1) + [DigitChar(2)];
    assert Digits(12) == "12";
    ZerosTwo();
  }

  lemma ZerosTwo()
    ensures Zeros(2) == "00"
  {
    assert Zeros(1) == "0";
  }

  lemma ZerosThree()
    ensures Zeros(3) == "000"
  {
    ZerosTwo();
  }

  /** Numbers below 10, 100, 1000 and 10000 have at most 1, 2, 3 and 4 digits. */
  lemma {:induction false} DigitsLength(n: nat)
    ensures n < 10 ==> |Digits(n)| == 1
    ensures n < 100 ==> |Digits(n)| <= 2
    ensures n < 1000 ==> |Digits(n)| <= 3
    ensures n < 10000 ==> |Digits(n)| <= 4
  {
    if n >= 10 {
      DigitsLength(n / 10);
    }
  }

  /** Every clip number below 10000 is padded to exactly four digits. */
  lemma PaddedFourWide(n: nat)
    requires n < 10000
    ensures |Padded(n, 4)| == 4
  {
    DigitsLength(n);
  }
}
