/** The two real-to-integer conversions the household model relies on:
    an integer conversion that truncates toward zero, and rounding to the
    nearest integer with ties broken away from zero. Both are given as
    functions and characterised by an independent predicate. */
module Numerics {

  /** `n` is `x` with its fractional part dropped (truncation toward zero). */
  ghost predicate TowardZero(x: real, n: int) {
    if x >= 0.0 then n as real <= x < n as real + 1.0
    else n as real - 1.0 < x <= n as real
  }

  /** `n` is an integer nearest to `x`; on a tie the one farther from zero. */
  ghost predicate NearestTiesAway(x: real, n: int) {
    || (x - 0.5 < n as real < x + 0.5)
    || (x > 0.0 && n as real == x + 0.5)
    || (x < 0.0 && n as real == x - 0.5)
  }

  /** Integer conversion of a real, discarding the fraction. */
  function Truncate(x: real): (n: int)
    ensures TowardZero(x, n)
    ensures 0.0 <= x ==> 0 <= n
    ensures x <= 0.0 ==> n <= 0
  {
    if x >= 0.0 then x.Floor else -((-x).Floor)
  }

  /** Rounding to the nearest integer, ties away from zero. */
  function Round(x: real): (n: int)
    ensures NearestTiesAway(x, n)
  {
    if x >= 0.0 then (x + 0.5).Floor else -((0.5 - x).Floor)
  }

  /** The characterisations pin the result down: each names exactly one integer. */
  lemma TowardZeroUnique(x: real, m: int, n: int)
    requires TowardZero(x, m) && TowardZero(x, n)
    ensures m == n
  {
  }

  lemma NearestTiesAwayUnique(x: real, m: int, n: int)
    requires NearestTiesAway(x, m) && NearestTiesAway(x, n)
    ensures m == n
  {
  }

  /** Converting a whole number changes nothing, under either rule. */
  lemma WholeNumbersAreFixed(k: int)
    ensures Truncate(k as real) == k
    ensures Round(k as real) == k
  {
    TowardZeroUnique(k as real, Truncate(k as real), k);
    NearestTiesAwayUnique(k as real, Round(k as real), k);
  }

  /** Truncation preserves order: a larger real never truncates to a smaller integer. */
  lemma {:induction false} TruncateIsMonotone(x: real, y: real)
    requires x <= y
    ensures Truncate(x) <= Truncate(y)
  {
    if x < 0.0 && y >= 0.0 {
      assert Truncate(x) <= 0 <= Truncate(y);
    }
  }
}
