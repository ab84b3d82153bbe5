/** Money amounts are exact reals; the calculator rounds its outputs to two
    fractional digits, as Python's `round(x, 2)` does. */
module Cents {

  /** `x` is a whole number of cents. */
  predicate IsCents(x: real) {
    (x * 100.0).Floor as real == x * 100.0
  }

  /** `round(x, 2)` on the exact value of `x`: the nearest whole cent, a tie
      going to the even cent. */
  function RoundCents(x: real): (r: real)
    ensures IsCents(r)
    ensures x - 0.005 <= r <= x + 0.005
  {
    var scaled := x * 100.0;
    var f := scaled.Floor;
    var frac := scaled - f as real;
    var n := if frac > 0.5 then f + 1
             else if frac < 0.5 then f
             else if f % 2 == 0 then f else f + 1;
    assert (n as real / 100.0) * 100.0 == n as real;
    n as real / 100.0
  }

  /** Rounding leaves an amount that is already whole cents unchanged. */
  lemma RoundCentsOfCents(x: real)
    requires IsCents(x)
    ensures RoundCents(x) == x
  {
  }

  /** Rounding keeps the order of two amounts. */
  lemma RoundCentsMonotone(x: real, y: real)
    requires x <= y
    ensures RoundCents(x) <= RoundCents(y)
  {
    var fx, fy := (x * 100.0).Floor, (y * 100.0).Floor;
    if fx < fy {
      assert RoundCents(x) <= (fx + 1) as real / 100.0;
      assert fy as real / 100.0 <= RoundCents(y);
    }
  }

  /** Anything from minus half a cent upwards rounds to a non-negative amount. */
  lemma RoundCentsNonNegative(x: real)
    requires x >= -0.005
    ensures RoundCents(x) >= 0.0
  {
    var f := (x * 100.0).Floor;
    assert f >= -1;
  }
}
