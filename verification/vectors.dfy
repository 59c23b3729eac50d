/**
  Dense real vectors and square matrices, with the handful of operations the
  solver uses: dot product, sum, difference, scaling and matrix-vector product.
  They stand in for the linear-algebra library the solver is written against,
  and are defined here as small recursive functions over exact reals.
 */
module Vectors {

  type Vector = seq<real>
  type Matrix = seq<seq<real>>

  /** An n-by-n matrix, stored as a sequence of n rows of length n. */
  predicate IsSquare(m: Matrix, n: nat) {
    |m| == n && forall i :: 0 <= i < |m| ==> |m[i]| == n
  }

  /** The inner product u·v. */
  function Dot(u: Vector, v: Vector): real
    requires |u| == |v|
    decreases |u|
  {
    if |u| == 0 then 0.0 else u[0] * v[0] + Dot(u[1..], v[1..])
  }

  function Add(u: Vector, v: Vector): (r: Vector)
    requires |u| == |v|
    ensures |r| == |u|
    ensures forall i :: 0 <= i < |r| ==> r[i] == u[i] + v[i]
    decreases |u|
  {
    if |u| == 0 then [] else [u[0] + v[0]] + Add(u[1..], v[1..])
  }

  function Sub(u: Vector, v: Vector): (r: Vector)
    requires |u| == |v|
    ensures |r| == |u|
    ensures forall i :: 0 <= i < |r| ==> r[i] == u[i] - v[i]
    decreases |u|
  {
    if |u| == 0 then [] else [u[0] - v[0]] + Sub(u[1..], v[1..])
  }

  /** The scalar multiple t·v. */
  function Scale(t: real, v: Vector): (r: Vector)
    ensures |r| == |v|
    ensures forall i :: 0 <= i < |r| ==> r[i] == t * v[i]
    decreases |v|
  {
    if |v| == 0 then [] else [t * v[0]] + Scale(t, v[1..])
  }

  /** The product m·x: entry i is the inner product of row i with x. */
  function MatVec(m: Matrix, x: Vector): (r: Vector)
    requires forall i :: 0 <= i < |m| ==> |m[i]| == |x|
    ensures |r| == |m|
    ensures forall i :: 0 <= i < |r| ==> r[i] == Dot(m[i], x)
    decreases |m|
  {
    if |m| == 0 then [] else [Dot(m[0], x)] + MatVec(m[1..], x)
  }

  /** The squared Euclidean distance between two points. */
  function SqDist(u: Vector, v: Vector): real
    requires |u| == |v|
  {
    var d := Sub(u, v);
    Dot(d, d)
  }

  lemma {:induction false} DotSymmetric(u: Vector, v: Vector)
    requires |u| == |v|
    ensures Dot(u, v) == Dot(v, u)
    decreases |u|
  {
    if |u| > 0 {
      DotSymmetric(u[1..], v[1..]);
    }
  }

  lemma {:induction false} DotNonNegative(u: Vector)
    ensures Dot(u, u) >= 0.0
    decreases |u|
  {
    if |u| > 0 {
      DotNonNegative(u[1..]);
      assert u[0] * u[0] >= 0.0;
    }
  }

  /** The inner product distributes over a sum in its second argument. */
  lemma {:induction false} DotAddRight(u: Vector, v: Vector, w: Vector)
    requires |u| == |v| == |w|
    ensures Dot(u, Add(v, w)) == Dot(u, v) + Dot(u, w)
    decreases |u|
  {
    if |u| > 0 {
      assert Add(v, w)[1..] == Add(v[1..], w[1..]);
      DotAddRight(u[1..], v[1..], w[1..]);
    }
  }

  /** The inner product distributes over a difference in its second argument. */
  lemma {:induction false} DotSubRight(u: Vector, v: Vector, w: Vector)
    requires |u| == |v| == |w|
    ensures Dot(u, Sub(v, w)) == Dot(u, v) - Dot(u, w)
    decreases |u|
  {
    if |u| > 0 {
      assert Sub(v, w)[1..] == Sub(v[1..], w[1..]);
      DotSubRight(u[1..], v[1..], w[1..]);
    }
  }

  /** A scalar factor in the second argument moves out of the inner product. */
  lemma {:induction false} DotScaleRight(u: Vector, t: real, v: Vector)
    requires |u| == |v|
    ensures Dot(u, Scale(t, v)) == t * Dot(u, v)
    decreases |u|
  {
    if |u| > 0 {
      assert Scale(t, v)[1..] == Scale(t, v[1..]);
      DotScaleRight(u[1..], t, v[1..]);
      assert u[0] * (t * v[0]) == t * (u[0] * v[0]);
    }
  }

  /** A vector orthogonal to v is orthogonal to every multiple of v. */
  lemma OrthogonalToMultiple(u: Vector, t: real, v: Vector)
    requires |u| == |v|
    requires Dot(u, v) == 0.0
    ensures Dot(u, Scale(t, v)) == 0.0
  {
    DotScaleRight(u, t, v);
  }

  /** Moving along v leaves the inner product with a vector orthogonal to v unchanged. */
  lemma OrthogonalMoveKeepsDot(d: Vector, x: Vector, t: real, v: Vector)
    requires |d| == |x| == |v|
    requires Dot(d, v) == 0.0
    ensures Dot(d, Add(x, Scale(t, v))) == Dot(d, x)
  {
    DotAddRight(d, x, Scale(t, v));
    OrthogonalToMultiple(d, t, v);
  }

  /** Moving x by t along a changes its inner product with a by t·(a·a). */
  lemma DotAlongSelf(a: Vector, x: Vector, t: real)
    requires |a| == |x|
    ensures Dot(a, Add(x, Scale(t, a))) == Dot(a, x) + t * Dot(a, a)
  {
    DotAddRight(a, x, Scale(t, a));
    DotScaleRight(a, t, a);
  }

  /** Dividing by a non-zero real and multiplying back gives the numerator. */
  lemma DivMulCancel(num: real, den: real)
    requires den != 0.0
    ensures (num / den) * den == num
  {
  }

  /** The product of a matrix with a difference is the difference of the products. */
  lemma MatVecSub(m: Matrix, x: Vector, y: Vector)
    requires |x| == |y|
    requires forall i :: 0 <= i < |m| ==> |m[i]| == |x|
    ensures MatVec(m, Sub(x, y)) == Sub(MatVec(m, x), MatVec(m, y))
  {
    var lhs := MatVec(m, Sub(x, y));
    var rhs := Sub(MatVec(m, x), MatVec(m, y));
    forall i | 0 <= i < |m|
      ensures lhs[i] == rhs[i]
    {
      DotSubRight(m[i], x, y);
    }
    assert lhs == rhs;
  }

  /** Expanding |u + w|² when u and w are orthogonal (Pythagoras). */
  lemma Pythagoras(u: Vector, w: Vector)
    requires |u| == |w|
    requires Dot(u, w) == 0.0
    ensures Dot(Add(u, w), Add(u, w)) == Dot(u, u) + Dot(w, w)
  {
    var s := Add(u, w);
    DotAddRight(s, u, w);
    DotSymmetric(s, u);
    DotSymmetric(s, w);
    DotAddRight(u, u, w);
    DotAddRight(w, u, w);
    DotSymmetric(w, u);
  }
}
