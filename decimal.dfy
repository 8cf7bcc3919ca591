/**
 * Python's decimal rendering of integers: `str(n)` (and `{n}` in an
 * f-string) and the zero-padded width specification `{n:0w}` used for the
 * run hour (`{:02}`) and the forecast horizon (`{:03}`), together with the
 * digit parser that reads such a field back (`int(s)`).
 */
module Decimal {

  function Pow10(k: nat): (p: nat)
    ensures p >= 1
  {
    if k == 0 then 1 else 10 * Pow10(k - 1)
  }

  predicate IsDigit(c: char) {
    '0' <= c <= '9'
  }

  predicate AllDigits(s: string) {
    forall i :: 0 <= i < |s| ==> IsDigit(s[i])
  }

  /** Characters that may occur in a rendered integer: digits and the minus sign. */
  predicate IsNumeral(s: string) {
    forall i :: 0 <= i < |s| ==> IsDigit(s[i]) || s[i] == '-'
  }

  function DigitChar(d: nat): (c: char)
    requires d < 10
    ensures IsDigit(c)
  {
    ('0' as int + d) as char
  }

  function DigitValue(c: char): (d: nat)
    requires IsDigit(c)
    ensures d < 10
  {
    c as int - '0' as int
  }

  /** `str(n)` for a non-negative `n`: its digits without leading zeros. */
  function Digits(n: nat): string
    decreases n
  {
    if n < 10 then [DigitChar(n)] else Digits(n / 10) + [DigitChar(n % 10)]
  }

  /** `int(s)` for a string of decimal digits (the empty string reads as 0). */
  function Parse(s: string): nat
    requires AllDigits(s)
  {
    if s == [] then 0 else Parse(s[..|s| - 1]) * 10 + DigitValue(s[|s| - 1])
  }

  function Zeros(k: nat): (z: string)
    ensures |z| == k && AllDigits(z)
  {
    seq(k, _ => '0')
  }

  /** `str(n)`: a minus sign for a negative value, then the digits of its magnitude. */
  function Str(n: int): string {
    if n < 0 then "-" + Digits(-n) else Digits(n)
  }

  /**
   * `format(n, "0w")`: sign-aware zero padding. The sign comes first, zeros
   * fill up to `width` characters, and a wider value is never truncated.
   */
  function ZeroPad(n: int, width: nat): string {
    var sign := if n < 0 then "-" else "";
    var digits := Digits(if n < 0 then -n else n);
    var fill := if |sign| + |digits| < width then width - |sign| - |digits| else 0;
    sign + Zeros(fill) + digits
  }

  /** `Digits` yields at least one decimal digit, and no more than `k` when `n < 10^k`. */
  lemma {:induction false} DigitsShape(n: nat, k: nat)
    requires 1 <= k && n < Pow10(k)
    ensures AllDigits(Digits(n)) && 1 <= |Digits(n)| <= k
    decreases n
  {
    if n >= 10 {
      DigitsShape(n / 10, k - 1);
    }
  }

  /** Reading the digits back gives the number: `int(str(n)) == n`. */
  lemma {:induction false} ParseDigits(n: nat)
    ensures AllDigits(Digits(n)) && Parse(Digits(n)) == n
    decreases n
  {
    if n >= 10 {
      ParseDigits(n / 10);
      var s := Digits(n);
      assert s[..|s| - 1] == Digits(n / 10);
    }
  }

  /** Leading zeros do not change the value read back. */
  lemma {:induction false} ParseLeadingZeros(k: nat, s: string)
    requires AllDigits(s)
    ensures AllDigits(Zeros(k) + s) && Parse(Zeros(k) + s) == Parse(s)
    decreases |s|
  {
    var t := Zeros(k) + s;
    if s == [] {
      assert t == Zeros(k);
      ParseZeros(k);
    } else {
      assert t[..|t| - 1] == Zeros(k) + s[..|s| - 1];
      ParseLeadingZeros(k, s[..|s| - 1]);
    }
  }

  lemma {:induction false} ParseZeros(k: nat)
    ensures Parse(Zeros(k)) == 0
  {
    if k > 0 {
      assert Zeros(k)[..k - 1] == Zeros(k - 1);
      ParseZeros(k - 1);
    }
  }

  /**
   * For `0 <= n < 10^width` the zero-padded field is exactly `width` digits
   * long and reads back as `n`.
   */
  lemma ZeroPadRoundTrip(n: int, width: nat)
    requires 1 <= width && 0 <= n < Pow10(width)
    ensures |ZeroPad(n, width)| == width
    ensures AllDigits(ZeroPad(n, width))
    ensures Parse(ZeroPad(n, width)) == n
  {
    DigitsShape(n, width);
    ParseDigits(n);
    ParseLeadingZeros(width - |Digits(n)|, Digits(n));
    assert ZeroPad(n, width) == Zeros(width - |Digits(n)|) + Digits(n);
  }

  /** Two values in range never share a zero-padded field. */
  lemma ZeroPadInjective(a: int, b: int, width: nat)
    requires 1 <= width && 0 <= a < Pow10(width) && 0 <= b < Pow10(width)
    ensures ZeroPad(a, width) == ZeroPad(b, width) <==> a == b
  {
    ZeroPadRoundTrip(a, width);
    ZeroPadRoundTrip(b, width);
  }

  lemma {:induction false} DigitsAreNumeral(n: nat)
    ensures IsNumeral(Digits(n))
    decreases n
  {
    if n >= 10 {
      DigitsAreNumeral(n / 10);
    }
  }

  /** Whatever the value, `str(n)` and `format(n, "0w")` use only digits and `-`. */
  lemma RenderedIntsAreNumerals(n: int, width: nat)
    ensures IsNumeral(Str(n)) && IsNumeral(ZeroPad(n, width))
  {
    DigitsAreNumeral(if n < 0 then -n else n);
  }
}
