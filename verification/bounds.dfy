/** Saturating bounds shared by the servo angles and the motor duties. */
module Bounds {

  function Min(a: int, b: int): int { if a <= b then a else b }

  function Max(a: int, b: int): int { if a >= b then a else b }

  /** `max(lo, min(hi, x))`, the clamp the controller applies to every
      servo angle and every motor duty before it is used. */
  function Clamp(x: int, lo: int, hi: int): (r: int)
    ensures lo <= hi ==> lo <= r <= hi
    ensures lo <= x <= hi ==> r == x
    ensures lo <= hi && x < lo ==> r == lo
    ensures lo <= hi && hi < x ==> r == hi
  {
    Max(lo, Min(hi, x))
  }

  /** Independent characterisation: the clamped value is the point of
      `[lo, hi]` nearest to `x`. */
  lemma ClampIsNearest(x: int, lo: int, hi: int, b: int)
    requires lo <= b <= hi
    ensures lo <= Clamp(x, lo, hi) <= hi
    ensures Dist(Clamp(x, lo, hi), x) <= Dist(b, x)
  {
  }

  function Dist(a: int, b: int): nat { if a >= b then a - b else b - a }

  /** Clamping never reverses the order of two values. */
  lemma ClampMonotone(x: int, y: int, lo: int, hi: int)
    requires lo <= hi && x <= y
    ensures Clamp(x, lo, hi) <= Clamp(y, lo, hi)
  {
  }

  /** Clamping twice is clamping once. */
  lemma ClampIdempotent(x: int, lo: int, hi: int)
    requires lo <= hi
    ensures Clamp(Clamp(x, lo, hi), lo, hi) == Clamp(x, lo, hi)
  {
  }
}
