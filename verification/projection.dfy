/**
  Orthogonal projection onto the hyperplane { x : a·x = e }.

  The projected point is x + t·a with t = (e − a·x) / (a·a). The division is
  only meaningful when a·a ≠ 0; the Rust code computes it unchecked in f64
  (a zero normal yields NaN), so here it is a precondition.
 */
module Projection {
  import opened Vectors

  /** The point lies on the hyperplane a·x = e. */
  predicate OnHyperplane(x: Vector, a: Vector, e: real)
    requires |x| == |a|
  {
    Dot(a, x) == e
  }

  /** The multiple of a that carries x onto the hyperplane. */
  function Offset(x: Vector, a: Vector, e: real): real
    requires |x| == |a|
    requires Dot(a, a) != 0.0
  {
    (e - Dot(a, x)) / Dot(a, a)
  }

  /** Closed-form orthogonal projection of x onto { y : a·y = e }. */
  function ProjectOntoHyperplane(x: Vector, a: Vector, e: real): (r: Vector)
    requires |x| == |a|
    requires Dot(a, a) != 0.0
    ensures |r| == |x|
    ensures OnHyperplane(r, a, e)
  {
    var t := Offset(x, a, e);
    DotAlongSelf(a, x, t);
    DivMulCancel(e - Dot(a, x), Dot(a, a));
    Add(x, Scale(t, a))
  }

  /** The projection moves x only along the normal a, by exactly Offset(x, a, e). */
  lemma ProjectionMovesAlongNormal(x: Vector, a: Vector, e: real)
    requires |x| == |a|
    requires Dot(a, a) != 0.0
    ensures Sub(ProjectOntoHyperplane(x, a, e), x) == Scale(Offset(x, a, e), a)
  {
    var d := Sub(ProjectOntoHyperplane(x, a, e), x);
    var s := Scale(Offset(x, a, e), a);
    assert forall i :: 0 <= i < |d| ==> d[i] == s[i];
    assert d == s;
  }

  /** Every component orthogonal to a is left untouched by the projection. */
  lemma ProjectionKeepsOrthogonalComponents(x: Vector, a: Vector, e: real, d: Vector)
    requires |x| == |a| == |d|
    requires Dot(a, a) != 0.0
    requires Dot(d, a) == 0.0
    ensures Dot(d, ProjectOntoHyperplane(x, a, e)) == Dot(d, x)
  {
    OrthogonalMoveKeepsDot(d, x, Offset(x, a, e), a);
  }

  /** A point already on the hyperplane is its own projection, and only such points are. */
  lemma ProjectionFixesExactlyFeasible(x: Vector, a: Vector, e: real)
    requires |x| == |a|
    requires Dot(a, a) != 0.0
    ensures ProjectOntoHyperplane(x, a, e) == x <==> OnHyperplane(x, a, e)
  {
    if OnHyperplane(x, a, e) {
      var r := ProjectOntoHyperplane(x, a, e);
      assert Offset(x, a, e) == 0.0;
      assert forall i :: 0 <= i < |r| ==> r[i] == x[i];
    }
  }

  /** Projecting twice is the same as projecting once. */
  lemma ProjectionIdempotent(x: Vector, a: Vector, e: real)
    requires |x| == |a|
    requires Dot(a, a) != 0.0
    ensures ProjectOntoHyperplane(ProjectOntoHyperplane(x, a, e), a, e) == ProjectOntoHyperplane(x, a, e)
  {
    ProjectionFixesExactlyFeasible(ProjectOntoHyperplane(x, a, e), a, e);
  }

  /** The segment from a feasible y to the projection r is orthogonal to the step from x to r. */
  lemma ResidualOrthogonalToStep(x: Vector, a: Vector, e: real, y: Vector)
    requires |x| == |a| == |y|
    requires Dot(a, a) != 0.0
    requires OnHyperplane(y, a, e)
    ensures Dot(Sub(y, ProjectOntoHyperplane(x, a, e)), Sub(ProjectOntoHyperplane(x, a, e), x)) == 0.0
  {
    var r := ProjectOntoHyperplane(x, a, e);
    var t := Offset(x, a, e);
    var u := Sub(y, r);
    ProjectionMovesAlongNormal(x, a, e);
    DotSubRight(a, y, r);
    DotSymmetric(a, u);
    OrthogonalToMultiple(u, t, a);
  }

  /**
    The projection is orthogonal: for every point y on the hyperplane,
    |y − x|² = |y − r|² + |r − x|², so r is the point of the hyperplane
    nearest to x.
   */
  lemma ProjectionIsNearestPoint(x: Vector, a: Vector, e: real, y: Vector)
    requires |x| == |a| == |y|
    requires Dot(a, a) != 0.0
    requires OnHyperplane(y, a, e)
    ensures SqDist(y, x) == SqDist(y, ProjectOntoHyperplane(x, a, e)) + SqDist(ProjectOntoHyperplane(x, a, e), x)
    ensures SqDist(ProjectOntoHyperplane(x, a, e), x) <= SqDist(y, x)
  {
    var r := ProjectOntoHyperplane(x, a, e);
    var u := Sub(y, r);
    var w := Sub(r, x);
    ResidualOrthogonalToStep(x, a, e, y);
    Pythagoras(u, w);
    var yx := Sub(y, x);
    assert forall i :: 0 <= i < |yx| ==> yx[i] == Add(u, w)[i];
    assert yx == Add(u, w);
    DotNonNegative(u);
  }
}
