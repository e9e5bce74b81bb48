/** Python's `round(x, ndigits)` on the real-number model of floats: the value
    nearest to `x` among multiples of 10^-ndigits, ties going to the even
    multiple (Python's rounding rule, applied here to the exact value). */
module Rounding {

  function Pow10(n: nat): (p: nat)
    ensures p >= 1
  {
    if n == 0 then 1 else 10 * Pow10(n - 1)
  }

  /** 10^digits as a real number: the number of rounding steps per unit. */
  function Scale(digits: nat): (p: real)
    ensures p >= 1.0
  {
    Pow10(digits) as real
  }

  /** `round(x)`: nearest integer, ties to even. */
  function RoundHalfEven(x: real): (k: int)
    ensures x - 0.5 <= k as real <= x + 0.5
    ensures k as real == x - 0.5 || k as real == x + 0.5 ==> k % 2 == 0
  {
    var f := x.Floor;
    var frac := x - f as real;
    if frac < 0.5 then f
    else if frac > 0.5 then f + 1
    else if f % 2 == 0 then f
    else f + 1
  }

  /** `round(x, digits)` */
  function RoundTo(x: real, digits: nat): real
  {
    RoundHalfEven(x * Scale(digits)) as real / Scale(digits)
  }

  /** The rounded value is a multiple of 10^-digits within half a step of `x`. */
  lemma RoundToIsNearestMultiple(x: real, digits: nat)
    ensures RoundTo(x, digits) * Scale(digits) == RoundHalfEven(x * Scale(digits)) as real
    ensures x - 0.5 / Scale(digits) <= RoundTo(x, digits) <= x + 0.5 / Scale(digits)
  {
    var y := x * Scale(digits);
    var k := RoundHalfEven(y) as real;
    assert RoundTo(x, digits) == k / Scale(digits);
    assert y - 0.5 <= k <= y + 0.5;
    QuotientTimesDivisor(k, Scale(digits));
    ScaledBounds(x, y, k, Scale(digits));
  }

  lemma QuotientTimesDivisor(k: real, p: real)
    requires p > 0.0
    ensures (k / p) * p == k
  {
  }

  lemma ScaledBounds(x: real, y: real, k: real, p: real)
    requires p > 0.0 && y == x * p && y - 0.5 <= k <= y + 0.5
    ensures x - 0.5 / p <= k / p <= x + 0.5 / p
  {
    var q := k / p;
    QuotientTimesDivisor(k, p);
    var h := 0.5 / p;
    QuotientTimesDivisor(0.5, p);
    assert (q - x) * p == k - x * p;
    assert (q - x) * p <= h * p;
    assert (x - q) * p <= h * p;
    CancelPositive(q - x, h, p);
    CancelPositive(x - q, h, p);
  }

  lemma CancelPositive(a: real, b: real, p: real)
    requires p > 0.0 && a * p <= b * p
    ensures a <= b
  {
    assert (b - a) * p >= 0.0;
  }

  /** A value that is already a multiple of 10^-digits is left unchanged. */
  lemma RoundToExact(x: real, digits: nat, k: int)
    requires x * Scale(digits) == k as real
    ensures RoundTo(x, digits) == x
  {
    RoundHalfEvenOfInteger(k);
    var y := x * Scale(digits);
    assert y == k as real;
    assert RoundHalfEven(y) == k;
    assert RoundTo(x, digits) == RoundHalfEven(y) as real / Scale(digits);
  }

  lemma RoundHalfEvenOfInteger(k: int)
    ensures RoundHalfEven(k as real) == k
  {
    assert (k as real).Floor == k;
  }

  /** Rounding keeps a non-negative value non-negative. */
  lemma RoundToNonNegative(x: real, digits: nat)
    requires x >= 0.0
    ensures RoundTo(x, digits) >= 0.0
  {
    assert x * Scale(digits) >= 0.0;
    var k := RoundHalfEven(x * Scale(digits));
    assert k >= 0;
    assert k as real / Scale(digits) >= 0.0;
  }
}
