/** `round(x, 2)`, applied to exact values at the output boundary of the
    aggregator. */
module Rounding {

  /** The integer nearest to `x`; a tie goes to the even neighbour. */
  function NearestEven(x: real): (n: int)
    ensures -0.5 <= n as real - x <= 0.5
  {
    var f := x.Floor;
    var frac := x - f as real;
    if frac < 0.5 then f
    else if frac > 0.5 then f + 1
    else if f % 2 == 0 then f else f + 1
  }

  /** `round(x, 2)`: the nearest multiple of 0.01, ties to even. The result
      is a whole number of cents within half a cent of `x`. */
  function Round2(x: real): (r: real)
    ensures (r * 100.0).Floor as real == r * 100.0
    ensures -0.005 <= r - x <= 0.005
  {
    NearestEven(x * 100.0) as real / 100.0
  }

  lemma NearestEvenMonotone(x: real, y: real)
    requires x <= y
    ensures NearestEven(x) <= NearestEven(y)
  {
  }

  /** Rounding never reverses an order, so it preserves `min <= avg <= max`. */
  lemma Round2Monotone(x: real, y: real)
    requires x <= y
    ensures Round2(x) <= Round2(y)
  {
    NearestEvenMonotone(x * 100.0, y * 100.0);
  }

  /** An amount that is already a whole number of cents is left unchanged. */
  lemma Round2OfCents(cents: int)
    ensures Round2(cents as real / 100.0) == cents as real / 100.0
  {
    var x := cents as real / 100.0;
    assert x * 100.0 == cents as real;
    assert (cents as real).Floor == cents;
  }

  /** Rounding twice is rounding once. */
  lemma Round2Idempotent(x: real)
    ensures Round2(Round2(x)) == Round2(x)
  {
    Round2OfCents(NearestEven(x * 100.0));
  }
}
