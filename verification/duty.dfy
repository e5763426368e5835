/**
 The clamp both `set_duty` implementations of the wrapper apply:
 `duty.min(max_duty).max(min_duty)`, over an integer duty.
 */
module Duty {

  /** `Ord::min`: the first argument unless the second is strictly smaller. */
  function Min(a: int, b: int): (r: int)
    ensures r <= a && r <= b
    ensures r == a || r == b
  {
    if b < a then b else a
  }

  /** `Ord::max`: the second argument if it is at least as large, else the first. */
  function Max(a: int, b: int): (r: int)
    ensures r >= a && r >= b
    ensures r == a || r == b
  {
    if b >= a then b else a
  }

  /** `v.min(hi).max(lo)`. The bounds are not checked for order: with
      `hi < lo` every value is sent to `lo`. */
  function Clamp(v: int, lo: int, hi: int): (r: int)
    ensures r >= lo
    ensures lo <= hi ==> r <= hi
    ensures lo <= v <= hi ==> r == v
    ensures v < lo ==> r == lo
    ensures lo <= hi && hi < v ==> r == hi
    ensures hi < lo ==> r == lo
  {
    Max(Min(v, hi), lo)
  }

  /** Clamping twice is clamping once, whatever the order of the bounds. */
  lemma ClampIdempotent(v: int, lo: int, hi: int)
    ensures Clamp(Clamp(v, lo, hi), lo, hi) == Clamp(v, lo, hi)
  {
  }

  /** Clamping preserves the order of duties. */
  lemma ClampMonotone(v: int, w: int, lo: int, hi: int)
    requires v <= w
    ensures Clamp(v, lo, hi) <= Clamp(w, lo, hi)
  {
  }

  /** A duty passes the clamp unchanged exactly when it already lies in the
      range (or, with inverted bounds, is the lower bound). */
  lemma ClampFixedIff(v: int, lo: int, hi: int)
    ensures Clamp(v, lo, hi) == v <==> (lo <= v <= hi || (hi < lo && v == lo))
  {
  }

  /** With ordered bounds the clamp is the point of `[lo, hi]` nearest to `v`. */
  lemma ClampIsNearest(v: int, lo: int, hi: int, w: int)
    requires lo <= hi
    requires lo <= w <= hi
    ensures lo <= Clamp(v, lo, hi) <= hi
    ensures Dist(Clamp(v, lo, hi), v) <= Dist(w, v)
  {
  }

  function Dist(a: int, b: int): (d: nat) {
    if a <= b then b - a else a - b
  }
}
