/**
 * Python's `round(x, 3)` and `f"{x:.3f}"`, both of which round to the nearest
 * thousandth and send an exact tie to the even neighbour. Values are carried
 * as whole thousandths (an `int`), so 1.034 is 1034.
 */
module Rounding {

  /** Rounds `y` to the nearest integer; a tie goes to the even integer. */
  function RoundHalfEven(y: real): (r: int)
    ensures y - 0.5 <= r as real <= y + 0.5
    ensures (r as real == y - 0.5 || r as real == y + 0.5) ==> r % 2 == 0
  {
    var f := y.Floor;
    var frac := y - f as real;
    if frac < 0.5 then f
    else if frac > 0.5 then f + 1
    else if f % 2 == 0 then f
    else f + 1
  }

  /** `round(x, 3)` expressed in thousandths. */
  function Thousandths(x: real): (r: int)
    ensures x * 1000.0 - 0.5 <= r as real <= x * 1000.0 + 0.5
  {
    RoundHalfEven(x * 1000.0)
  }

  /** `round(x, 3)` of a value drawn from `[lo/1000, hi/1000]` lies in `[lo, hi]` thousandths. */
  lemma ThousandthsWithin(x: real, lo: int, hi: int)
    requires lo as real <= x * 1000.0 <= hi as real
    ensures lo <= Thousandths(x) <= hi
  {
  }
}
