/** Rounding of a price to two decimals, as `parseFloat(x.toFixed(2))` does it,
    taken on exact real numbers. `toFixed` rounds the magnitude of its argument
    to the nearest cent, an exact tie going to the larger magnitude, and puts
    the sign back. */
module Rounding {

  /** True when `x` is a whole number of cents. */
  predicate IsCents(x: real) {
    (x * 100.0).Floor as real == x * 100.0
  }

  /** Nearest cent to a non-negative amount, an exact tie going up. */
  function RoundHalfUp(x: real): (r: real)
    ensures IsCents(r)
    ensures -0.005 < r - x <= 0.005
  {
    var k := (x * 100.0 + 0.5).Floor;
    assert (k as real / 100.0) * 100.0 == k as real;
    k as real / 100.0
  }

  /** `parseFloat(x.toFixed(2))`: a cent value within half a cent of `x`;
      at an exact half cent the larger magnitude wins. */
  function Round2(x: real): (r: real)
    ensures IsCents(r)
    ensures -0.005 <= r - x <= 0.005
    ensures 0.0 <= x ==> -0.005 < r - x
    ensures x < 0.0 ==> r - x < 0.005
  {
    if x < 0.0 then CentsNegate(RoundHalfUp(-x)); -RoundHalfUp(-x) else RoundHalfUp(x)
  }

  /** The negation of a cent value is a cent value. */
  lemma CentsNegate(x: real)
    requires IsCents(x)
    ensures IsCents(-x)
  {
    var m := (x * 100.0).Floor;
    assert -x * 100.0 == (-m) as real;
  }

  /** Flooring never reverses an order. */
  lemma FloorMonotone(x: real, y: real)
    requires x <= y
    ensures x.Floor <= y.Floor
  {
  }

  /** Rounding never reverses an order: the property that lets every
      inequality between unrounded prices survive into the stored ones. */
  lemma Round2Monotone(x: real, y: real)
    requires x <= y
    ensures Round2(x) <= Round2(y)
  {
    if 0.0 <= x {
      FloorMonotone(x * 100.0 + 0.5, y * 100.0 + 0.5);
    } else if y < 0.0 {
      FloorMonotone(-y * 100.0 + 0.5, -x * 100.0 + 0.5);
    } else {
      assert (-x * 100.0 + 0.5).Floor >= 0 by { FloorMonotone(0.0, -x * 100.0 + 0.5); }
      assert (y * 100.0 + 0.5).Floor >= 0 by { FloorMonotone(0.0, y * 100.0 + 0.5); }
    }
  }

  /** A value that is already a whole number of cents is left as it is, so
      rounding a stored price again changes nothing. */
  lemma Round2OfCents(x: real)
    requires IsCents(x)
    ensures Round2(x) == x
  {
    var k := (x * 100.0).Floor;
    if x < 0.0 {
      assert (-x * 100.0).Floor == -k;
      assert (-x * 100.0 + 0.5).Floor == -k;
    } else {
      assert (x * 100.0 + 0.5).Floor == k;
    }
  }

  /** Rounding is idempotent. */
  lemma Round2Idempotent(x: real)
    ensures Round2(Round2(x)) == Round2(x)
  {
    Round2OfCents(Round2(x));
  }

  /** Shifting a cent value by a whole number of units gives a cent value. */
  lemma CentsShift(x: real, k: int)
    requires IsCents(x)
    ensures IsCents(x + k as real)
  {
    var m := (x * 100.0).Floor;
    assert x * 100.0 == m as real;
    assert (k as real) * 100.0 == (100 * k) as real;
    assert (x + k as real) * 100.0 == x * 100.0 + (k as real) * 100.0;
    assert (x + k as real) * 100.0 == (m + 100 * k) as real;
  }
}
