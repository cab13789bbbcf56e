/** Dense real vectors and matrices as sequences, with the few operations the
    plant and the controller need (numpy's `@` matrix–vector products). */
module LinearAlgebra {

  type Vector = seq<real>
  type Matrix = seq<Vector>

  /** `m` has `rows` rows, each of length `cols`. */
  predicate IsMatrix(m: Matrix, rows: nat, cols: nat)
  {
    |m| == rows && forall i :: 0 <= i < rows ==> |m[i]| == cols
  }

  predicate IsZero(v: Vector)
  {
    forall i :: 0 <= i < |v| ==> v[i] == 0.0
  }

  function Zeros(n: nat): (r: Vector)
    ensures |r| == n && IsZero(r)
  {
    seq(n, _ => 0.0)
  }

  function Dot(a: Vector, b: Vector): real
    requires |a| == |b|
    decreases |a|
  {
    if |a| == 0 then 0.0 else a[0] * b[0] + Dot(a[1..], b[1..])
  }

  /** The product m·v: one dot product per row. */
  function MatVec(m: Matrix, v: Vector): (r: Vector)
    requires forall i :: 0 <= i < |m| ==> |m[i]| == |v|
    ensures |r| == |m|
    ensures forall i :: 0 <= i < |m| ==> r[i] == Dot(m[i], v)
  {
    seq(|m|, i requires 0 <= i < |m| => Dot(m[i], v))
  }

  function Add(a: Vector, b: Vector): (r: Vector)
    requires |a| == |b|
    ensures |r| == |a|
    ensures forall i :: 0 <= i < |a| ==> r[i] == a[i] + b[i]
  {
    seq(|a|, i requires 0 <= i < |a| => a[i] + b[i])
  }

  function Sub(a: Vector, b: Vector): (r: Vector)
    requires |a| == |b|
    ensures |r| == |a|
    ensures forall i :: 0 <= i < |a| ==> r[i] == a[i] - b[i]
  {
    seq(|a|, i requires 0 <= i < |a| => a[i] - b[i])
  }

  function Scale(v: Vector, c: real): (r: Vector)
    ensures |r| == |v|
    ensures forall i :: 0 <= i < |v| ==> r[i] == v[i] * c
  {
    seq(|v|, i requires 0 <= i < |v| => v[i] * c)
  }

  /** A dot product against the zero vector vanishes. */
  lemma {:induction false} DotZero(a: Vector, z: Vector)
    requires |a| == |z| && IsZero(z)
    ensures Dot(a, z) == 0.0
    decreases |a|
  {
    if |a| > 0 {
      DotZero(a[1..], z[1..]);
    }
  }

  /** The dot product is additive in its second argument. */
  lemma {:induction false} DotAdd(a: Vector, u: Vector, v: Vector)
    requires |a| == |u| == |v|
    ensures Dot(a, Add(u, v)) == Dot(a, u) + Dot(a, v)
    decreases |a|
  {
    if |a| > 0 {
      assert Add(u, v)[1..] == Add(u[1..], v[1..]);
      DotAdd(a[1..], u[1..], v[1..]);
    }
  }

  /** The product m·v is additive in v. */
  lemma MatVecAdd(m: Matrix, u: Vector, v: Vector)
    requires |u| == |v|
    requires forall i :: 0 <= i < |m| ==> |m[i]| == |u|
    ensures MatVec(m, Add(u, v)) == Add(MatVec(m, u), MatVec(m, v))
  {
    forall i | 0 <= i < |m|
      ensures MatVec(m, Add(u, v))[i] == Add(MatVec(m, u), MatVec(m, v))[i]
    {
      DotAdd(m[i], u, v);
    }
  }

  /** The product m·0 is the zero vector. */
  lemma MatVecZero(m: Matrix, z: Vector)
    requires IsZero(z)
    requires forall i :: 0 <= i < |m| ==> |m[i]| == |z|
    ensures IsZero(MatVec(m, z))
  {
    forall i | 0 <= i < |m|
      ensures MatVec(m, z)[i] == 0.0
    {
      DotZero(m[i], z);
    }
  }
}
