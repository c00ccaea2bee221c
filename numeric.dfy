/** Numeric helpers that stand in for the JavaScript built-ins the game uses
    (`Math.abs`, `parseInt` on a number, `Math.round`); `Math.floor` is
    Dafny's own `.Floor`. */
module Numeric {

  function Abs(x: real): (r: real)
    ensures 0.0 <= r
    ensures r == x || r == -x
  {
    if x < 0.0 then -x else x
  }

  /** `parseInt(x)` for a number `x`: the integer part, truncated toward zero
      (what JavaScript gives for `1e-6 <= |x| < 1e21`). */
  function Trunc(x: real): (r: int)
    ensures 0.0 <= x ==> 0 <= r && r as real <= x < r as real + 1.0
    ensures x < 0.0 ==> r <= 0 && r as real - 1.0 < x <= r as real
  {
    if x >= 0.0 then x.Floor else -((-x).Floor)
  }

  /** `Math.round(x)`: the nearest integer, halves rounded upward. */
  function RoundHalfUp(x: real): (r: int)
    ensures x - 0.5 < r as real <= x + 0.5
  {
    (x + 0.5).Floor
  }

  /** Rounding leaves an integer as it is. */
  lemma RoundHalfUpOfInt(k: int)
    ensures RoundHalfUp(k as real) == k
  {
  }

  /** The larger of two integers; used to count the whole steps of a frame,
      which is never negative. */
  function Max(a: int, b: int): (r: int)
    ensures r >= a && r >= b && (r == a || r == b)
  {
    if a < b then b else a
  }
}
