/**
 * Decimal text of integers, as PHP's string conversion of an `int` and
 * `str_pad(..., '0', STR_PAD_LEFT)` produce it, with the reading-back
 * function that serves as its partner.
 */
module Decimal {

  predicate IsDigit(c: char) {
    '0' <= c <= '9'
  }

  predicate AllDigits(s: string) {
    forall i :: 0 <= i < |s| ==> IsDigit(s[i])
  }

  function DigitChar(d: int): (c: char)
    requires 0 <= d < 10
    ensures IsDigit(c) && (c as int) - ('0' as int) == d
  {
    (('0' as int) + d) as char
  }

  function DigitValue(c: char): int
    requires IsDigit(c)
  {
    (c as int) - ('0' as int)
  }

  /** Decimal text of a natural number, without leading zeros. */
  function Dec(n: nat): (s: string)
    ensures 1 <= |s| && AllDigits(s)
  {
    if n < 10 then [DigitChar(n)] else Dec(n / 10) + [DigitChar(n % 10)]
  }

  /** PHP's conversion of an `int` to a string: a minus sign for negative values. */
  function IntText(i: int): string {
    if i < 0 then "-" + Dec(-i) else Dec(i)
  }

  /** The number a string of digits denotes (most significant digit first). */
  function Value(s: string): nat
    requires AllDigits(s)
  {
    if s == [] then 0 else Value(s[..|s| - 1]) * 10 + DigitValue(s[|s| - 1])
  }

  function Pow10(k: nat): (p: nat)
    ensures 1 <= p
  {
    if k == 0 then 1 else 10 * Pow10(k - 1)
  }

  /** Left-padding with zeros to `width` characters. */
  function ZeroPad(s: string, width: nat): (r: string)
    ensures |r| == if |s| < width then width else |s|
    ensures AllDigits(s) ==> AllDigits(r)
    ensures r[|r| - |s|..] == s
  {
    if |s| < width then Zeros(width - |s|) + s else s
  }

  function Zeros(k: nat): (r: string)
    ensures |r| == k && AllDigits(r)
  {
    if k == 0 then "" else "0" + Zeros(k - 1)
  }

  /** Reading back the decimal text gives the number: `Dec` loses nothing. */
  lemma {:induction false} ValueOfDec(n: nat)
    ensures Value(Dec(n)) == n
  {
    if n >= 10 {
      var s := Dec(n);
      assert s[..|s| - 1] == Dec(n / 10);
      ValueOfDec(n / 10);
    }
  }

  /** Different numbers have different decimal texts. */
  lemma DecInjective(a: nat, b: nat)
    ensures Dec(a) == Dec(b) ==> a == b
  {
    ValueOfDec(a);
    ValueOfDec(b);
  }

  /** Two digit strings of the same length denote the same number only when they are equal. */
  lemma {:induction false} ValueInjective(a: string, b: string)
    requires AllDigits(a) && AllDigits(b) && |a| == |b|
    requires Value(a) == Value(b)
    ensures a == b
  {
    if a != [] {
      var n := |a| - 1;
      var da, db := DigitValue(a[n]), DigitValue(b[n]);
      var va, vb := Value(a[..n]), Value(b[..n]);
      assert va * 10 + da == vb * 10 + db;
      assert da == db && va == vb;
      ValueInjective(a[..n], b[..n]);
      assert a == a[..n] + [a[n]] && b == b[..n] + [b[n]];
    }
  }

  /** Distinct integers are written differently, sign included. */
  lemma IntTextInjective(a: int, b: int)
    ensures IntText(a) == IntText(b) ==> a == b
  {
    if a < 0 && b < 0 {
      assert Dec(-a) == IntText(a)[1..];
      assert Dec(-b) == IntText(b)[1..];
      DecInjective(-a, -b);
    } else if 0 <= a && 0 <= b {
      DecInjective(a, b);
    } else {
      // one text starts with '-', the other with a digit
      var n := if a < 0 then b else a;
      assert IsDigit(Dec(n)[0]);
    }
  }

  /** A number below 10^k has at most k decimal digits. */
  lemma {:induction false} DecLength(n: nat, k: nat)
    requires 1 <= k && n < Pow10(k)
    ensures |Dec(n)| <= k
  {
    if n >= 10 {
      DecLength(n / 10, k - 1);
    }
  }

  /** Leading zeros do not change the value. */
  lemma {:induction false} ValueLeadingZero(s: string)
    requires AllDigits(s)
    ensures AllDigits("0" + s) && Value("0" + s) == Value(s)
  {
    if s != [] {
      var t := "0" + s;
      assert t[..|t| - 1] == "0" + s[..|s| - 1];
      ValueLeadingZero(s[..|s| - 1]);
    }
  }

  lemma {:induction false} ValueZeros(k: nat, s: string)
    requires AllDigits(s)
    ensures AllDigits(Zeros(k) + s) && Value(Zeros(k) + s) == Value(s)
  {
    if k > 0 {
      var t := Zeros(k - 1) + s;
      ValueZeros(k - 1, s);
      ValueLeadingZero(t);
      assert Zeros(k) + s == "0" + t;
    } else {
      assert Zeros(k) + s == s;
    }
  }

  lemma {:induction false} ValueZeroPad(s: string, width: nat)
    requires AllDigits(s)
    ensures Value(ZeroPad(s, width)) == Value(s)
  {
    if |s| < width {
      ValueZeros(width - |s|, s);
    }
  }

  /** Zero-padded decimal text of n in a field of `width` digits, when n fits. */
  lemma PaddedDec(n: nat, width: nat)
    requires 1 <= width && n < Pow10(width)
    ensures |ZeroPad(Dec(n), width)| == width
    ensures AllDigits(ZeroPad(Dec(n), width))
    ensures Value(ZeroPad(Dec(n), width)) == n
  {
    DecLength(n, width);
    ValueZeroPad(Dec(n), width);
    ValueOfDec(n);
  }
}
