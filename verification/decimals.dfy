/**
 * Exact decimal money and the two rounding modes the pricing code uses.
 * Python's Decimal values are modelled as exact rationals (`real`).
 */
module Decimals {

  /** Nearest integer, ties to the even neighbour: `quantize(Decimal('1'))` under the default context. */
  function RoundHalfEven(x: real): (r: int)
    ensures r as real - x <= 0.5 && x - r as real <= 0.5
    ensures (r as real - x == 0.5 || x - r as real == 0.5) ==> r % 2 == 0
  {
    var f := x.Floor;
    var d := x - f as real;
    if d < 0.5 then f
    else if d > 0.5 then f + 1
    else if f % 2 == 0 then f
    else f + 1
  }

  /** Nearest integer, ties away from zero: `to_integral_value(rounding=ROUND_HALF_UP)`. */
  function RoundHalfUp(x: real): (r: int)
    ensures r as real - x <= 0.5 && x - r as real <= 0.5
    ensures r as real - x == 0.5 ==> x > 0.0
    ensures x - r as real == 0.5 ==> x < 0.0
  {
    if x >= 0.0 then (x + 0.5).Floor else -((-x + 0.5).Floor)
  }

  /** An integer-valued decimal stays what it is under half-even rounding. */
  lemma RoundHalfEvenOfInteger(n: int)
    ensures RoundHalfEven(n as real) == n
  {
  }

  /** The value has at most two decimal places (a `decimal_places=2` field). */
  predicate HasCents(a: real)
  {
    (a * 100.0).Floor as real == a * 100.0
  }

  function Max(a: real, b: real): real { if a >= b then a else b }

  function Min(a: real, b: real): real { if a <= b then a else b }
}
