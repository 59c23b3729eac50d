/**
  Projected subgradient descent for

      minimise  xᵀQx + pᵀx + Σᵢ max(xᵢ·bᵢ, xᵢ·sᵢ)   subject to  a·x = e.

  Each iteration k (counted from 0) takes the direction 2·Q·x + p + max(b, s),
  moves against it by the decaying step alpha / (gamma + k), and projects the
  result back onto the hyperplane a·x = e. Exactly maxIter iterations are run;
  there is no convergence test.

  Floating point is replaced by exact reals throughout.
 */
module Solver {
  import opened Vectors
  import opened Projection

  /** Coordinate-wise maximum of two vectors of equal length. */
  function MaxElementwise(u: Vector, v: Vector): (r: Vector)
    requires |u| == |v|
    ensures |r| == |u|
    ensures forall i :: 0 <= i < |r| ==> r[i] >= u[i] && r[i] >= v[i]
    ensures forall i :: 0 <= i < |r| ==> r[i] == u[i] || r[i] == v[i]
    decreases |u|
  {
    if |u| == 0 then []
    else [if u[0] >= v[0] then u[0] else v[0]] + MaxElementwise(u[1..], v[1..])
  }

  /** MaxElementwise is the least upper bound: any vector above both inputs is above it. */
  lemma MaxElementwiseLeastUpperBound(u: Vector, v: Vector, c: Vector)
    requires |u| == |v| == |c|
    requires forall i :: 0 <= i < |c| ==> c[i] >= u[i] && c[i] >= v[i]
    ensures forall i :: 0 <= i < |c| ==> c[i] >= MaxElementwise(u, v)[i]
  {
  }

  /** The order of the arguments does not matter. */
  lemma MaxElementwiseCommutes(u: Vector, v: Vector)
    requires |u| == |v|
    ensures MaxElementwise(u, v) == MaxElementwise(v, u)
  {
    var l := MaxElementwise(u, v);
    var r := MaxElementwise(v, u);
    assert forall i :: 0 <= i < |l| ==> l[i] == r[i];
  }

  /** The denominator gamma + k of the step at iteration k. */
  function StepDenominator(gamma: real, k: nat): real {
    gamma + k as real
  }

  /** The step is defined at every iteration 0 .. maxIter-1. */
  predicate ScheduleDefined(gamma: real, maxIter: nat) {
    forall k :: 0 <= k < maxIter ==> StepDenominator(gamma, k) != 0.0
  }

  /** The decaying step size alpha / (gamma + k) of iteration k. */
  function StepSize(alpha: real, gamma: real, k: nat): (step: real)
    requires StepDenominator(gamma, k) != 0.0
    ensures step * StepDenominator(gamma, k) == alpha
  {
    alpha / StepDenominator(gamma, k)
  }

  /** With alpha > 0 and gamma > 0 the steps are positive and strictly decreasing. */
  lemma StepSizeDecays(alpha: real, gamma: real, i: nat, j: nat)
    requires alpha > 0.0 && gamma > 0.0
    requires i < j
    ensures 0.0 < StepSize(alpha, gamma, j) < StepSize(alpha, gamma, i)
  {
    var di := StepDenominator(gamma, i);
    var dj := StepDenominator(gamma, j);
    var si := StepSize(alpha, gamma, i);
    var sj := StepSize(alpha, gamma, j);
    assert 0.0 < di < dj;
    assert sj > 0.0;
    assert sj * dj == si * di;
    assert sj * di < sj * dj;
  }

  /** The data of one problem instance; the iterate and iteration count are kept apart. */
  datatype Problem = Problem(
    q: Matrix,      // quadratic form, n×n
    p: Vector,      // linear term
    b: Vector,      // first arm of the coordinate-wise penalty
    s: Vector,      // second arm of the coordinate-wise penalty
    a: Vector,      // normal of the constraint hyperplane
    e: real,        // right-hand side of the constraint a·x = e
    alpha: real,    // step-size numerator
    gamma: real     // step-size offset
  )

  /** Every matrix and vector of the problem has dimension n. */
  predicate Dimensions(prob: Problem, n: nat) {
    && IsSquare(prob.q, n)
    && |prob.p| == n
    && |prob.b| == n
    && |prob.s| == n
    && |prob.a| == n
  }

  /**
    What running maxIter iterations from a point of dimension n needs. As soon
    as one iteration runs, the data must match the point's dimension and the
    normal must be non-zero; every iteration needs a non-zero step denominator.
    With no iteration the data is never read, so nothing is asked of it.
   */
  predicate CanRun(prob: Problem, n: nat, maxIter: nat) {
    && (maxIter > 0 ==> Dimensions(prob, n) && Dot(prob.a, prob.a) != 0.0)
    && ScheduleDefined(prob.gamma, maxIter)
  }

  /**
    The search direction 2·Q·x + p + max(b, s) at the point x: entry i is twice
    row i of Q applied to x, plus p[i], plus the larger of b[i] and s[i].
   */
  function Subgradient(prob: Problem, x: Vector): (g: Vector)
    requires Dimensions(prob, |x|)
    ensures |g| == |x|
    ensures forall i :: 0 <= i < |g| ==>
      g[i] == 2.0 * Dot(prob.q[i], x) + prob.p[i] + (if prob.b[i] >= prob.s[i] then prob.b[i] else prob.s[i])
  {
    var gradF := Add(Scale(2.0, MatVec(prob.q, x)), prob.p);
    var subgradG := MaxElementwise(prob.b, prob.s);
    Add(gradF, subgradG)
  }

  /**
    Only the quadratic term makes the direction depend on the point: the
    directions at two points differ by 2·Q·(x − y), whatever p, b and s are.
   */
  lemma SubgradientDifference(prob: Problem, x: Vector, y: Vector)
    requires |x| == |y|
    requires Dimensions(prob, |x|)
    ensures Sub(Subgradient(prob, x), Subgradient(prob, y)) == Scale(2.0, MatVec(prob.q, Sub(x, y)))
  {
    MatVecSub(prob.q, x, y);
    var lhs := Sub(Subgradient(prob, x), Subgradient(prob, y));
    var rhs := Scale(2.0, MatVec(prob.q, Sub(x, y)));
    var qx := MatVec(prob.q, x);
    var qy := MatVec(prob.q, y);
    forall i | 0 <= i < |lhs|
      ensures lhs[i] == rhs[i]
    {
      assert rhs[i] == 2.0 * (qx[i] - qy[i]);
    }
    assert lhs == rhs;
  }

  /** One iteration with index k: a subgradient step followed by the projection. */
  function Step(prob: Problem, x: Vector, k: nat): (r: Vector)
    requires Dimensions(prob, |x|)
    requires Dot(prob.a, prob.a) != 0.0
    requires StepDenominator(prob.gamma, k) != 0.0
    ensures |r| == |x|
    ensures OnHyperplane(r, prob.a, prob.e)
  {
    var step := StepSize(prob.alpha, prob.gamma, k);
    var moved := Sub(x, Scale(step, Subgradient(prob, x)));
    ProjectOntoHyperplane(moved, prob.a, prob.e)
  }

  /** The iterate after the first n iterations (indices 0 .. n-1) starting from x0. */
  function Iterate(prob: Problem, x0: Vector, n: nat): (x: Vector)
    requires CanRun(prob, |x0|, n)
    ensures |x| == |x0|
    decreases n
  {
    if n == 0 then x0
    else
      assert ScheduleDefined(prob.gamma, n - 1);
      var prev := Iterate(prob, x0, n - 1);
      assert StepDenominator(prob.gamma, n - 1) != 0.0;
      Step(prob, prev, n - 1)
  }

  /** Iteration m + 1 is one Step, with index m, from the iterate after m iterations. */
  lemma IterateNext(prob: Problem, x0: Vector, m: nat)
    requires CanRun(prob, |x0|, m + 1)
    ensures CanRun(prob, |x0|, m)
    ensures Dot(prob.a, prob.a) != 0.0 && StepDenominator(prob.gamma, m) != 0.0
    ensures Iterate(prob, x0, m + 1) == Step(prob, Iterate(prob, x0, m), m)
  {
    assert ScheduleDefined(prob.gamma, m);
  }

  /**
    With no iterations the starting point is returned unchanged, feasible or
    not, whatever the problem data (its dimensions are not even consulted).
   */
  lemma ZeroIterationsIdentity(prob: Problem, x0: Vector)
    ensures CanRun(prob, |x0|, 0)
    ensures Iterate(prob, x0, 0) == x0
  {
  }

  /** After at least one iteration the iterate lies on the constraint hyperplane. */
  lemma IterateFeasible(prob: Problem, x0: Vector, n: nat)
    requires n >= 1
    requires CanRun(prob, |x0|, n)
    ensures OnHyperplane(Iterate(prob, x0, n), prob.a, prob.e)
  {
  }

  /** After at least one iteration the iterate is a fixed point of the projection. */
  lemma IterateIsProjectionFixedPoint(prob: Problem, x0: Vector, n: nat)
    requires n >= 1
    requires CanRun(prob, |x0|, n)
    ensures ProjectOntoHyperplane(Iterate(prob, x0, n), prob.a, prob.e) == Iterate(prob, x0, n)
  {
    IterateFeasible(prob, x0, n);
    ProjectionFixesExactlyFeasible(Iterate(prob, x0, n), prob.a, prob.e);
  }

  /**
    The solver loop: starting from x0, run exactly maxIter iterations of
    subgradient step and projection, and return the last iterate.
   */
  method ProjectedSubgradientDescent(q: Matrix, p: Vector, b: Vector, s: Vector, x0: Vector, maxIter: nat, a: Vector, e: real, alpha: real, gamma: real) returns (x: Vector)
    requires CanRun(Problem(q, p, b, s, a, e, alpha, gamma), |x0|, maxIter)
    ensures x == Iterate(Problem(q, p, b, s, a, e, alpha, gamma), x0, maxIter)
    ensures |x| == |x0|
    ensures maxIter == 0 ==> x == x0
    ensures maxIter >= 1 ==> Dot(a, x) == e
  {
    ghost var prob := Problem(q, p, b, s, a, e, alpha, gamma);
    x := x0;
    var iter := 0;
    while iter < maxIter
      invariant 0 <= iter <= maxIter
      invariant x == Iterate(prob, x0, iter)
    {
      var gradF := Add(Scale(2.0, MatVec(q, x)), p);
      var subgradG := MaxElementwise(b, s);
      var subgrad := Add(gradF, subgradG);
      assert StepDenominator(gamma, iter) != 0.0;
      var dynamicStepSize := alpha / (gamma + iter as real);
      x := Sub(x, Scale(dynamicStepSize, subgrad));
      x := ProjectOntoHyperplane(x, a, e);
      iter := iter + 1;
    }
    if maxIter >= 1 {
      IterateFeasible(prob, x0, maxIter);
    }
  }

  /**
    A run settles at z when the first iteration reaches z and every later
    iteration leaves z where it is.
   */
  lemma {:induction false} RunSettles(prob: Problem, x0: Vector, z: Vector, n: nat)
    requires n >= 1
    requires CanRun(prob, |x0|, n)
    requires |z| == |x0|
    requires Step(prob, x0, 0) == z
    requires forall k :: 1 <= k < n ==> Step(prob, z, k) == z
    ensures Iterate(prob, x0, n) == z
    decreases n
  {
    IterateNext(prob, x0, n - 1);
    if n > 1 {
      RunSettles(prob, x0, z, n - 1);
    }
  }
}
