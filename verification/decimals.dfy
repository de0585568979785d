/**
 * Exact decimal arithmetic and the two-place quantization used by the
 * salary engine. Python `Decimal` values are modelled as exact `real`s;
 * `quantize(Decimal('0.01'), rounding=ROUND_HALF_UP)` becomes `Round2`.
 */
module Decimals {

  /** The value has at most two fractional digits: it is a whole number of cents. */
  predicate IsCents(x: real) {
    (x * 100.0).Floor as real == x * 100.0
  }

  /**
   * Round to 2 decimal places, halves away from zero (Python's ROUND_HALF_UP).
   * The result is the unique whole number of cents within half a cent of `x`,
   * where a tie goes to the cent value further from zero.
   */
  function Round2(x: real): (r: real)
    ensures IsCents(r)
    ensures x >= 0.0 ==> x - 0.005 < r <= x + 0.005
    ensures x < 0.0 ==> x - 0.005 <= r < x + 0.005
    ensures x >= 0.0 ==> r >= 0.0
    ensures x <= 0.0 ==> r <= 0.0
  {
    var n := HalfUpCents(x);
    assert (n as real / 100.0) * 100.0 == n as real;
    n as real / 100.0
  }

  /** The number of whole cents nearest to `x`, halves away from zero. */
  function HalfUpCents(x: real): (n: int)
    ensures x >= 0.0 ==> x * 100.0 - 0.5 < n as real <= x * 100.0 + 0.5
    ensures x < 0.0 ==> x * 100.0 - 0.5 <= n as real < x * 100.0 + 0.5
  {
    if x >= 0.0 then (x * 100.0 + 0.5).Floor else -((-x * 100.0 + 0.5).Floor)
  }

  /** The bounds in Round2's contract determine its result uniquely among cent values. */
  lemma Round2Unique(x: real, c: real)
    requires IsCents(c)
    requires x >= 0.0 ==> x - 0.005 < c <= x + 0.005
    requires x < 0.0 ==> x - 0.005 <= c < x + 0.005
    ensures Round2(x) == c
  {
    var n := (c * 100.0).Floor;
    var m := (Round2(x) * 100.0).Floor;
    assert n as real == c * 100.0;
    assert m as real == Round2(x) * 100.0;
    assert -1 < n - m < 1;
  }

  /** A value that already has two decimals is left unchanged: rounding is idempotent. */
  lemma Round2OfCents(c: real)
    requires IsCents(c)
    ensures Round2(c) == c
  {
    Round2Unique(c, c);
  }

  /** Rounding never reverses the order of two values. */
  lemma Round2Monotone(x: real, y: real)
    requires x <= y
    ensures Round2(x) <= Round2(y)
  {
    var nx, ny := HalfUpCents(x), HalfUpCents(y);
    if ny < nx {
      assert false;
    }
    assert nx as real <= ny as real;
  }
}
