/**
 * Numeric helpers shared by every part of the app (app.js:3, 29-36, 45).
 * Numbers are `real`; JavaScript's `Math.round` rounds half up, which is
 * `(x + 0.5).Floor` for every real x, negative ones included.
 */
module Numeric {

  /** Kilojoules per kilocalorie (`KJ_PER_KCAL`). */
  const KJ_PER_KCAL: real := 4.184

  function Max(a: real, b: real): real { if a >= b then a else b }
  function Min(a: real, b: real): real { if a <= b then a else b }

  /** `n` is what `Math.round` gives for `x`: the nearest integer, halves going up. */
  predicate RoundsTo(n: int, x: real) {
    x - 0.5 < n as real <= x + 0.5
  }

  /** `Math.round` (and `r0`). */
  function Round(x: real): (r: int)
    ensures RoundsTo(r, x)
  {
    (x + 0.5).Floor
  }

  /** `round1` and `r1`: the nearest multiple of one tenth. */
  function Round1(x: real): (r: real)
    ensures x - 0.05 < r <= x + 0.05
    ensures (r * 10.0).Floor as real == r * 10.0
  {
    Round(x * 10.0) as real / 10.0
  }

  /** `toKj`: kilocalories shown as kilojoules, to one decimal. */
  function ToKj(kcal: real): (r: real)
    ensures kcal >= 0.0 ==> r >= 0.0
    ensures kcal * KJ_PER_KCAL - 0.05 < r <= kcal * KJ_PER_KCAL + 0.05
    ensures (r * 10.0).Floor as real == r * 10.0
  {
    Round1(kcal * KJ_PER_KCAL)
  }

  /** `clamp(n, min, max)`: `Math.min(max, Math.max(min, n))`. */
  function Clamp(n: real, lo: real, hi: real): (r: real)
    ensures lo <= hi ==> lo <= r <= hi
    ensures lo <= n <= hi ==> r == n
    ensures lo <= hi && n < lo ==> r == lo
    ensures n > hi ==> r == hi
  {
    Min(hi, Max(lo, n))
  }

  /** Dividing by a positive number keeps the sign, and a quotient is at least one when the dividend is at least the divisor. */
  lemma QuotientBounds(a: real, b: real)
    ensures b > 0.0 && a >= 0.0 ==> a / b >= 0.0
    ensures b > 0.0 && a >= b ==> a / b >= 1.0
  {
  }

  /** Rounding never leaves an interval whose ends are whole numbers. */
  lemma RoundWithin(x: real, lo: int, hi: int)
    requires lo as real <= x <= hi as real
    ensures lo <= Round(x) <= hi
  {
  }

  /** Rounding is monotone. */
  lemma RoundMonotone(x: real, y: real)
    requires x <= y
    ensures Round(x) <= Round(y)
  {
  }

  /** Clamping twice into the same range is clamping once. */
  lemma ClampIdempotent(n: real, lo: real, hi: real)
    requires lo <= hi
    ensures Clamp(Clamp(n, lo, hi), lo, hi) == Clamp(n, lo, hi)
  {
  }
}
