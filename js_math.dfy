/**
 * The two rounding rules the service applies to every number it returns,
 * stated on exact reals.
 *
 * JavaScript's Math.round returns the integer nearest to its argument and
 * breaks ties towards +infinity (2.5 -> 3, -2.5 -> -2), which is
 * floor(x + 0.5).
 */
module JsMath {

  /** Math.round(x). */
  function Round(x: real): (r: int)
    ensures x - 0.5 < r as real <= x + 0.5
  {
    (x + 0.5).Floor
  }

  /** True when x has at most one digit after the decimal point. */
  predicate OneDecimal(x: real) {
    (x * 10.0).Floor as real == x * 10.0
  }

  /** Math.round(x * 10) / 10: x rounded to one decimal place. */
  function RoundTenth(x: real): (r: real)
    ensures OneDecimal(r)
    ensures x - 0.05 < r <= x + 0.05
  {
    Round(x * 10.0) as real / 10.0
  }

  /** The integer Math.round returns is the unique integer within half a unit, ties going up. */
  lemma RoundUnique(x: real, n: int)
    requires x - 0.5 < n as real <= x + 0.5
    ensures Round(x) == n
  {
  }

  /** Rounding never reverses the order of two numbers. */
  lemma RoundMonotone(x: real, y: real)
    requires x <= y
    ensures Round(x) <= Round(y)
  {
  }

  /** A whole number is left unchanged by Math.round. */
  lemma RoundOfInteger(n: int)
    ensures Round(n as real) == n
  {
  }

  /** A number that already has one decimal place is left unchanged by the one-decimal rule. */
  lemma RoundTenthOfOneDecimal(x: real)
    requires OneDecimal(x)
    ensures RoundTenth(x) == x
  {
    RoundOfInteger((x * 10.0).Floor);
  }

  /** Halves go towards +infinity, for negative numbers too. */
  lemma RoundHalves()
    ensures Round(2.5) == 3 && Round(-2.5) == -2 && Round(0.5) == 1 && Round(-0.5) == 0
  {
  }
}
