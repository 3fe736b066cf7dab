/** Python's `abs`, `max` and `min` on timestamps, durations and levels. */
module Reals {
  function Abs(x: real): real { if x < 0.0 then -x else x }
  function Max(a: real, b: real): real { if a < b then b else a }
  function Min(a: real, b: real): real { if a < b then a else b }

  /** `max(lo, min(hi, x))`. */
  function Clamp(x: real, lo: real, hi: real): real { Max(lo, Min(hi, x)) }

  /** Python's `round` to an integer: the nearest integer, and of two equally near the
      even one. */
  function RoundHalfEven(x: real): (r: int)
    ensures Abs(x - r as real) <= 0.5
    ensures Abs(x - r as real) == 0.5 ==> r % 2 == 0
  {
    var f := x.Floor;
    var d := x - f as real;
    if d < 0.5 then f else if d > 0.5 then f + 1 else if f % 2 == 0 then f else f + 1
  }
}
