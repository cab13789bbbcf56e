/** Scalar helpers shared by every element of the control chain: absolute
    value, ordering helpers and the hard clamp used for every saturation. */
module Saturation {

  function Abs(v: real): (r: real)
    ensures r >= 0.0
    ensures r == v || r == -v
  {
    if v < 0.0 then -v else v
  }

  function Min(a: real, b: real): (r: real)
    ensures r <= a && r <= b
    ensures r == a || r == b
  {
    if a <= b then a else b
  }

  function Max(a: real, b: real): (r: real)
    ensures r >= a && r >= b
    ensures r == a || r == b
  {
    if a >= b then a else b
  }

  /** `r` lies in the closed interval spanned by `a` and `b`, whichever is larger. */
  predicate Between(r: real, a: real, b: real)
  {
    Min(a, b) <= r <= Max(a, b)
  }

  /** The clamp the way numpy evaluates it, min(max(v, lo), hi). With an
      empty interval (lo > hi) the result is hi whatever v is. */
  function Clip(v: real, lo: real, hi: real): (r: real)
    ensures r <= hi
    ensures lo <= hi ==> lo <= r
    ensures lo <= v <= hi ==> r == v
    ensures lo <= hi && v < lo ==> r == lo
    ensures v > hi ==> r == hi
    ensures lo > hi ==> r == hi
  {
    Min(Max(v, lo), hi)
  }

  /** Symmetric saturation to [-limit, limit], the only form the chain uses. */
  function Saturate(v: real, limit: real): (r: real)
    ensures limit >= 0.0 ==> Abs(r) <= limit
    ensures Abs(v) <= limit ==> r == v
    ensures limit >= 0.0 && v > limit ==> r == limit
    ensures limit >= 0.0 && v < -limit ==> r == -limit
    ensures limit < 0.0 ==> r == limit
  {
    Clip(v, -limit, limit)
  }

  /** Clamping never moves a value away from any point of the target interval. */
  lemma ClipTowardInterior(v: real, lo: real, hi: real, c: real)
    requires lo <= c <= hi
    ensures Abs(Clip(v, lo, hi) - c) <= Abs(v - c)
  {
  }

  /** A bounded rate integrated over a non-negative step moves by at most bound·dt. */
  lemma ScaledBound(a: real, bound: real, dt: real)
    requires Abs(a) <= bound
    requires dt >= 0.0
    ensures Abs(a * dt) <= bound * dt
  {
    if a >= 0.0 {
      assert a * dt <= bound * dt;
    } else {
      assert (-a) * dt <= bound * dt;
    }
  }
}
