/**
 * The rounding functions of JavaScript's `Math`, over exact reals.
 * `Math.round(x)` rounds halves upward, which is floor(x + 1/2).
 */
module JsMath {

  /** `Math.round(x)`. */
  function Round(x: real): (r: int)
    ensures x - 0.5 < r as real <= x + 0.5
  {
    (x + 0.5).Floor
  }

  /** `Math.ceil(x)`. */
  function Ceil(x: real): (r: int)
    ensures x <= r as real < x + 1.0
  {
    if x.Floor as real == x then x.Floor else x.Floor + 1
  }

  /** `Math.min(hi, Math.max(lo, x))`. */
  function Clamp(lo: int, hi: int, x: int): (r: int)
    requires lo <= hi
    ensures lo <= r <= hi
    ensures lo <= x <= hi ==> r == x
  {
    if x < lo then lo else if x > hi then hi else x
  }

  /** Clamping preserves order. */
  lemma ClampMonotone(lo: int, hi: int, x: int, y: int)
    requires lo <= hi && x <= y
    ensures Clamp(lo, hi, x) <= Clamp(lo, hi, y)
  {
  }

  /** Rounding preserves order. */
  lemma RoundMonotone(x: real, y: real)
    requires x <= y
    ensures Round(x) <= Round(y)
  {
    FloorMonotone(x + 0.5, y + 0.5);
  }

  lemma FloorMonotone(x: real, y: real)
    requires x <= y
    ensures x.Floor <= y.Floor
  {
  }

  /** Rounding a non-negative value gives a non-negative integer. */
  lemma RoundNonNegative(x: real)
    requires 0.0 <= x
    ensures 0 <= Round(x)
  {
    FloorMonotone(0.0, x + 0.5);
  }
}
