/**
 * Python's built-in `round(x)` on a number, returning an int: the nearest
 * integer, with exact halves going to the even neighbour ("banker's rounding").
 * The model applies it to exact rationals.
 */
module Rounding {

  /** `n` is a correct half-to-even rounding of `x`. */
  ghost predicate IsRoundHalfEven(x: real, n: int) {
    && (n as real) - 0.5 <= x <= (n as real) + 0.5
    && ((x == (n as real) - 0.5 || x == (n as real) + 0.5) ==> n % 2 == 0)
  }

  function RoundHalfEven(x: real): (n: int)
    ensures (n as real) - 0.5 <= x <= (n as real) + 0.5
    ensures x == (n as real) + 0.5 ==> n % 2 == 0
    ensures x == (n as real) - 0.5 ==> n % 2 == 0
  {
    var f := x.Floor;
    var frac := x - f as real;
    if frac < 0.5 then f
    else if frac > 0.5 then f + 1
    else if f % 2 == 0 then f
    else f + 1
  }

  /** The half-to-even rounding of a number is unique. */
  lemma RoundHalfEvenUnique(x: real, n: int)
    requires IsRoundHalfEven(x, n)
    ensures n == RoundHalfEven(x)
  {
  }

  /** Rounding never reverses the order of two numbers. */
  lemma RoundHalfEvenMonotone(x: real, y: real)
    requires x <= y
    ensures RoundHalfEven(x) <= RoundHalfEven(y)
  {
  }

  /** Whole numbers are left unchanged. */
  lemma RoundHalfEvenOfInt(k: int)
    ensures RoundHalfEven(k as real) == k
  {
  }
}
