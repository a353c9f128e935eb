/** Rounding half away from zero, the rounding of Go's math.Round, on exact fractions.

    The code computes these values in float64; the model computes them exactly. */
module Rounding {

  /** The integer nearest to num / den, halves away from zero. */
  function Round(num: int, den: int): int
    requires den > 0
  {
    if num >= 0 then (2 * num + den) / (2 * den) else -((den - 2 * num) / (2 * den))
  }

  lemma Quotient(x: int, m: int)
    requires m > 0
    ensures m * (x / m) <= x < m * (x / m) + m
  {}

  lemma Scale(m: int, a: int, b: int)
    requires m > 0
    ensures a <= b ==> m * a <= m * b
  {}

  lemma QuotientIs(x: int, m: int, q: int)
    requires m > 0 && m * q <= x < m * q + m
    ensures x / m == q
  {
    Quotient(x, m);
    Scale(m, x / m + 1, q);
    Scale(m, q + 1, x / m);
  }

  /** Twice the error is at most the denominator: the result is off by half at most. */
  lemma RoundError(num: int, den: int)
    requires den > 0
    ensures -den <= 2 * (den * Round(num, den) - num) <= den
  {
    var x := if num >= 0 then 2 * num + den else den - 2 * num;
    var q := x / (2 * den);
    Quotient(x, 2 * den);
    assert 2 * den * q == 2 * (den * q);
    if num < 0 {
      assert Round(num, den) == -q;
      assert den * -q == -(den * q);
    }
  }

  /** Ties go away from zero; with `RoundError` this leaves one possible result. */
  lemma RoundTies(num: int, den: int)
    requires den > 0
    ensures num >= 0 ==> -den < 2 * (den * Round(num, den) - num)
    ensures num <= 0 ==> 2 * (den * Round(num, den) - num) < den
  {
    var x := if num >= 0 then 2 * num + den else den - 2 * num;
    var q := x / (2 * den);
    Quotient(x, 2 * den);
    assert 2 * den * q == 2 * (den * q);
    if num == 0 { QuotientIs(den, 2 * den, 0); }
    if num < 0 {
      assert Round(num, den) == -q;
      assert den * -q == -(den * q);
    }
  }

  lemma RoundOdd(num: int, den: int)
    requires den > 0
    ensures Round(-num, den) == -Round(num, den)
  {
    if num == 0 { QuotientIs(den, 2 * den, 0); }
  }

  lemma RoundWhole(k: int, den: int)
    requires den > 0
    ensures Round(k * den, den) == k
  {
    if k >= 0 {
      assert k * den >= 0;
      assert (2 * den) * k == 2 * (k * den);
      QuotientIs(2 * (k * den) + den, 2 * den, k);
    } else {
      assert k * den < 0;
      assert (2 * den) * -k == -2 * (k * den);
      QuotientIs(den - 2 * (k * den), 2 * den, -k);
    }
  }

  /** Rounding stays between whole numbers. */
  lemma RoundWithin(num: int, den: int, bound: int)
    requires den > 0 && 0 <= num <= bound * den
    ensures 0 <= Round(num, den) <= bound
  {
    var r := Round(num, den);
    RoundError(num, den);
    hide Round;
    Scale(den, bound + 1, r);
    Scale(den, r, -1);
    assert den * (bound + 1) == bound * den + den;
  }

  lemma Combine(den: int, p: int, q: int, r: int)
    requires den > 0
    requires -3 * den <= 2 * (den * p - den * q + den * r) <= 3 * den
    ensures -1 <= p - (q - r) <= 1
  {
    var e := p - q + r;
    assert den * e == den * p - den * q + den * r;
    Scale(den, 2, e);
    Scale(den, e, -2);
  }

  /** The rounded parts of a difference differ from the rounded difference by at most one. */
  lemma RoundDifference(a: int, b: int, den: int)
    requires den > 0
    ensures -1 <= Round(a - b, den) - (Round(a, den) - Round(b, den)) <= 1
  {
    hide Round;
    RoundError(a, den);
    RoundError(b, den);
    RoundError(a - b, den);
    Combine(den, Round(a - b, den), Round(a, den), Round(b, den));
  }
}
