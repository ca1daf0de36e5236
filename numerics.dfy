/**
 * The numeric conversions of the two source languages, on mathematical reals:
 * Java's `(int)` cast of a double, Java's `Math.round`, and Python's `round(x, 2)`.
 */
module Numerics {

  function Abs(x: real): (r: real)
    ensures 0.0 <= r && (r == x || r == -x)
  {
    if x < 0.0 then -x else x
  }

  function Max(x: real, y: real): (r: real)
    ensures x <= r && y <= r && (r == x || r == y)
  {
    if x < y then y else x
  }

  /** Java's narrowing `(int)` cast: rounds toward zero. */
  function Trunc(x: real): (r: int)
    ensures 0.0 <= x ==> r as real <= x < r as real + 1.0
    ensures x < 0.0 ==> r as real - 1.0 < x <= r as real
  {
    if 0.0 <= x then x.Floor else -((-x).Floor)
  }

  /** On non-negative values truncation is the floor. */
  lemma TruncIsFloorOnNonNegative(x: real)
    requires 0.0 <= x
    ensures Trunc(x) == x.Floor
  {
  }

  lemma TruncMonotone(x: real, y: real)
    requires x <= y
    ensures Trunc(x) <= Trunc(y)
  {
  }

  /** An integral value is its own truncation. */
  lemma TruncOfInt(n: int)
    ensures Trunc(n as real) == n
  {
  }

  /** Java's `Math.round`: the nearest integer, halves rounded up (toward positive infinity). */
  function JavaRound(x: real): (r: int)
    ensures r as real - 0.5 <= x < r as real + 0.5
  {
    (x + 0.5).Floor
  }

  /** `Math.round(x * 100) / 100.0`: x rounded to two decimals. */
  function Round2(x: real): (r: real)
    ensures -0.005 < r - x <= 0.005
    ensures (r * 100.0).Floor as real == r * 100.0
  {
    JavaRound(x * 100.0) as real / 100.0
  }

  /**
   * The two-decimal value within (-0.005, 0.005] of x is unique, so `Round2` is fully
   * determined by its contract.
   */
  lemma Round2Unique(x: real, y: real)
    requires (y * 100.0).Floor as real == y * 100.0
    requires -0.005 < y - x <= 0.005
    ensures y == Round2(x)
  {
    var m := (y * 100.0).Floor;
    var n := (Round2(x) * 100.0).Floor;
    assert -0.5 < m as real - x * 100.0 <= 0.5;
    assert -0.5 < n as real - x * 100.0 <= 0.5;
    assert m == n;
  }

  /** Python's `round` to an integer on an exact value: halves go to the even neighbour. */
  function RoundHalfEven(x: real): (r: int)
    ensures -0.5 <= r as real - x <= 0.5
    ensures r as real - x == 0.5 || r as real - x == -0.5 ==> r % 2 == 0
  {
    var f := x.Floor;
    var frac := x - f as real;
    if frac < 0.5 then f
    else if frac > 0.5 then f + 1
    else if f % 2 == 0 then f else f + 1
  }

  /** Python's `round(x, 2)`, taken on the exact value of `x`. */
  function PyRound2(x: real): (r: real)
    ensures -0.005 <= r - x <= 0.005
    ensures (r * 100.0).Floor as real == r * 100.0
    ensures r - x == 0.005 || x - r == 0.005 ==> (r * 100.0).Floor % 2 == 0
  {
    RoundHalfEven(x * 100.0) as real / 100.0
  }

  /** Python and Java round two-decimal ties differently: 0.125 becomes 0.12 in one and 0.13 in the other. */
  lemma RoundingTieDiffers()
    ensures PyRound2(0.125) == 0.12 && Round2(0.125) == 0.13
  {
    assert (0.125 * 100.0).Floor == 12;
    assert (0.125 * 100.0 + 0.5).Floor == 13;
  }
}
