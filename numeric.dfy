/** Python's `round` on the engine's numbers. Prices are modelled as exact reals, so
    `round(x)` is round-half-to-even on the exact value and `round(x, 2)` rounds to cents. */
module Numeric {

  /** `round(x)`: the integer nearest to `x`, ties to the even one (see
      `RoundHalfEvenNearest`). */
  function RoundHalfEven(x: real): int
  {
    var f := x.Floor;
    var frac := x - f as real;
    if frac < 1.0 / 2.0 then f
    else if frac > 1.0 / 2.0 then f + 1
    else if f % 2 == 0 then f else f + 1
  }

  /** The result of `round` is within half of `x`, a tie goes to the even
      neighbour, and a whole number is left alone. */
  lemma RoundHalfEvenNearest(x: real)
    ensures var r := RoundHalfEven(x);
            x - 1.0 / 2.0 <= r as real <= x + 1.0 / 2.0 &&
            (r as real - x == 1.0 / 2.0 ==> r % 2 == 0) &&
            (x - r as real == 1.0 / 2.0 ==> r % 2 == 0) &&
            (x == x.Floor as real ==> r == x.Floor)
  {
  }

  /** `round(x, 2)`: the nearest multiple of one cent (see `RoundCentsNearest`). */
  function RoundCents(x: real): real
  {
    RoundHalfEven(x * 100.0) as real / 100.0
  }

  /** Rounding to cents moves a value by at most half a cent and gives a whole number
      of cents. */
  lemma RoundCentsNearest(x: real)
    ensures -1.0 / 200.0 <= RoundCents(x) - x <= 1.0 / 200.0
    ensures (RoundCents(x) * 100.0).Floor as real == RoundCents(x) * 100.0
  {
    var k := RoundHalfEven(x * 100.0);
    RoundHalfEvenNearest(x * 100.0);
    assert RoundCents(x) * 100.0 == k as real;
  }

  /** A value that is already a whole number of cents is left alone. */
  lemma RoundCentsIdempotent(x: real)
    ensures RoundCents(RoundCents(x)) == RoundCents(x)
  {
    var k := RoundHalfEven(x * 100.0);
    assert RoundCents(x) * 100.0 == k as real;
    assert (k as real).Floor == k;
    RoundHalfEvenNearest(k as real);
  }
}
