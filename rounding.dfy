/**
 * Python's `round(x, 2)` and `round(x, 1)` on money and ratings, modelled on exact
 * reals: round half up to the nearest hundredth (tenth).
 */
module Rounding {

  /** Rounds to two decimal places. */
  function Round2(x: real): (r: real)
    ensures x - 1.0 / 200.0 < r <= x + 1.0 / 200.0
    ensures (r * 100.0).Floor as real == r * 100.0
  {
    (x * 100.0 + 0.5).Floor as real / 100.0
  }

  /** Rounds to one decimal place. */
  function Round1(x: real): (r: real)
    ensures x - 1.0 / 20.0 < r <= x + 1.0 / 20.0
    ensures (r * 10.0).Floor as real == r * 10.0
  {
    (x * 10.0 + 0.5).Floor as real / 10.0
  }

  lemma Round2Monotone(x: real, y: real)
    requires x <= y
    ensures Round2(x) <= Round2(y)
  {
    assert (x * 100.0 + 0.5).Floor <= (y * 100.0 + 0.5).Floor;
  }

  lemma Round1Monotone(x: real, y: real)
    requires x <= y
    ensures Round1(x) <= Round1(y)
  {
    assert (x * 10.0 + 0.5).Floor <= (y * 10.0 + 0.5).Floor;
  }

  /** A whole number of cents is left as it is. */
  lemma Round2Cents(k: int)
    ensures Round2(k as real / 100.0) == k as real / 100.0
  {
    var y := k as real / 100.0;
    assert y * 100.0 == k as real;
    assert (y * 100.0 + 0.5).Floor == k;
  }

  /** A whole number of tenths is left as it is. */
  lemma Round1Tenths(k: int)
    ensures Round1(k as real / 10.0) == k as real / 10.0
  {
    var y := k as real / 10.0;
    assert y * 10.0 == k as real;
    assert (y * 10.0 + 0.5).Floor == k;
  }

  /** A value between two whole tenths rounds to a value between them. */
  lemma Round1Between(lo: int, x: real, hi: int)
    requires lo as real / 10.0 <= x <= hi as real / 10.0
    ensures lo as real / 10.0 <= Round1(x) <= hi as real / 10.0
  {
    Round1Monotone(lo as real / 10.0, x);
    Round1Monotone(x, hi as real / 10.0);
    Round1Tenths(lo);
    Round1Tenths(hi);
  }

  /** Rounding never turns a non-positive amount into a positive one. */
  lemma Round2NonPositive(x: real)
    requires x <= 0.0
    ensures Round2(x) <= 0.0
  {
    Round2Monotone(x, 0.0);
    Round2Cents(0);
  }
}
