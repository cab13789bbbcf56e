/** The linear aircraft plant x' = A·x + B·u (class LinearPlant), advanced by
    one forward-Euler step per call. */
module Plant {
  import opened LinearAlgebra

  datatype LinearPlant = LinearPlant(A: Matrix, B: Matrix, x: Vector)

  /** A is n×n, B is n×m and the state has length n = |x|. */
  predicate WellShaped(p: LinearPlant, m: nat)
  {
    IsMatrix(p.A, |p.x|, |p.x|) && IsMatrix(p.B, |p.x|, m)
  }

  /** Construction: the state is the zero vector with one entry per row of A. */
  function New(A: Matrix, B: Matrix): (p: LinearPlant)
    ensures p.A == A && p.B == B
    ensures |p.x| == |A| && IsZero(p.x)
  {
    LinearPlant(A, B, Zeros(|A|))
  }

  /** Reset zeroes every state component in place and keeps the matrices. */
  function Reset(p: LinearPlant): (r: LinearPlant)
    ensures r.A == p.A && r.B == p.B
    ensures |r.x| == |p.x| && IsZero(r.x)
    ensures |p.x| == |p.A| ==> r == New(p.A, p.B)
  {
    p.(x := Zeros(|p.x|))
  }

  /** The state derivative A·x + B·u. */
  function Derivative(p: LinearPlant, u: Vector): (d: Vector)
    requires WellShaped(p, |u|)
    ensures |d| == |p.x|
    ensures forall i :: 0 <= i < |d| ==> d[i] == Dot(p.A[i], p.x) + Dot(p.B[i], u)
  {
    Add(MatVec(p.A, p.x), MatVec(p.B, u))
  }

  /** One forward-Euler step x ← x + (A·x + B·u)·dt; the new state is also
      what the call returns. */
  function Step(p: LinearPlant, u: Vector, dt: real): (r: LinearPlant)
    requires WellShaped(p, |u|)
    ensures r.A == p.A && r.B == p.B
    ensures |r.x| == |p.x| && WellShaped(r, |u|)
    ensures forall i :: 0 <= i < |p.x| ==>
              r.x[i] == p.x[i] + (Dot(p.A[i], p.x) + Dot(p.B[i], u)) * dt
  {
    var d := Derivative(p, u);
    var x' := Add(p.x, Scale(d, dt));
    assert forall i :: 0 <= i < |p.x| ==> x'[i] == p.x[i] + d[i] * dt;
    p.(x := x')
  }

  /** The zero state under zero input is an equilibrium. */
  lemma ZeroIsFixedPoint(p: LinearPlant, u: Vector, dt: real)
    requires WellShaped(p, |u|)
    requires IsZero(p.x) && IsZero(u)
    ensures IsZero(Step(p, u, dt).x)
  {
    MatVecZero(p.A, p.x);
    MatVecZero(p.B, u);
  }

  /** A zero-length step leaves the state where it is. */
  lemma ZeroStepIsIdentity(p: LinearPlant, u: Vector)
    requires WellShaped(p, |u|)
    ensures Step(p, u, 0.0) == p
  {
  }

  /** The derivative A·x + B·u is linear in the pair (x, u). */
  lemma DerivativeIsLinear(p: LinearPlant, q: LinearPlant, u: Vector, v: Vector)
    requires |u| == |v| && |p.x| == |q.x|
    requires q.A == p.A && q.B == p.B
    requires WellShaped(p, |u|)
    ensures WellShaped(p.(x := Add(p.x, q.x)), |u|) && WellShaped(q, |v|)
    ensures Derivative(p.(x := Add(p.x, q.x)), Add(u, v)) == Add(Derivative(p, u), Derivative(q, v))
  {
    MatVecAdd(p.A, p.x, q.x);
    MatVecAdd(p.B, u, v);
    AddInterchange(MatVec(p.A, p.x), MatVec(p.A, q.x), MatVec(p.B, u), MatVec(p.B, v));
  }

  /** (a1 + a2) + (b1 + b2) == (a1 + b1) + (a2 + b2), element by element. */
  lemma AddInterchange(a1: Vector, a2: Vector, b1: Vector, b2: Vector)
    requires |a1| == |a2| == |b1| == |b2|
    ensures Add(Add(a1, a2), Add(b1, b2)) == Add(Add(a1, b1), Add(a2, b2))
  {
  }

  /** The Euler update x + d·dt is additive in the pair (x, d). */
  lemma EulerIsLinear(xp: Vector, xq: Vector, dp: Vector, dq: Vector, dt: real)
    requires |xp| == |xq| == |dp| == |dq|
    ensures Add(Add(xp, xq), Scale(Add(dp, dq), dt)) == Add(Add(xp, Scale(dp, dt)), Add(xq, Scale(dq, dt)))
  {
    var lhs := Add(Add(xp, xq), Scale(Add(dp, dq), dt));
    var rhs := Add(Add(xp, Scale(dp, dt)), Add(xq, Scale(dq, dt)));
    forall i | 0 <= i < |xp|
      ensures lhs[i] == rhs[i]
    {
      EulerSum(xp[i], xq[i], dp[i], dq[i], dt);
    }
  }

  lemma EulerSum(xp: real, xq: real, dp: real, dq: real, dt: real)
    ensures (xp + xq) + (dp + dq) * dt == (xp + dp * dt) + (xq + dq * dt)
  {
  }

  /** Superposition: the Euler step of the sum of two (state, input) pairs is
      the sum of their Euler steps, as befits a linear plant. */
  lemma StepIsLinear(p: LinearPlant, q: LinearPlant, u: Vector, v: Vector, dt: real)
    requires |u| == |v| && |p.x| == |q.x|
    requires q.A == p.A && q.B == p.B
    requires WellShaped(p, |u|)
    ensures WellShaped(q, |v|)
    ensures Step(p.(x := Add(p.x, q.x)), Add(u, v), dt).x == Add(Step(p, u, dt).x, Step(q, v, dt).x)
  {
    DerivativeIsLinear(p, q, u, v);
    EulerIsLinear(p.x, q.x, Derivative(p, u), Derivative(q, v), dt);
  }
}
