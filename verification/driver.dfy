/**
  The problem instance of the Python driver script, python/test.py, and what
  the solver does on it: Q = I, p = 0, b = s = (1, 1), a = (1, 1), e = 1,
  alpha = gamma = 1, started at the origin. In exact arithmetic the first
  iteration lands on (1/2, 1/2) and every later iteration stays there.
 */
module Driver {
  import opened Vectors
  import opened Projection
  import opened Solver

  /** The driver's data, with the starting point (the origin) kept apart. */
  function TestProblem(): Problem {
    Problem([[1.0, 0.0], [0.0, 1.0]], [0.0, 0.0], [1.0, 1.0], [1.0, 1.0], [1.0, 1.0], 1.0, 1.0, 1.0)
  }

  /** The inner product of two vectors of length two, written out. */
  lemma DotOfPair(u: Vector, v: Vector)
    requires |u| == |v| == 2
    ensures Dot(u, v) == u[0] * v[0] + u[1] * v[1]
  {
    var u1, v1 := u[1..], v[1..];
    assert Dot(u1[1..], v1[1..]) == 0.0;
    assert Dot(u1, v1) == u[1] * v[1];
  }

  /** A symmetric point projects onto the line x₁ + x₂ = 1 at (1/2, 1/2). */
  lemma ProjectSymmetricOntoDiagonal(y: Vector, m: real)
    requires y == [m, m]
    ensures Dot([1.0, 1.0], [1.0, 1.0]) == 2.0
    ensures ProjectOntoHyperplane(y, [1.0, 1.0], 1.0) == [0.5, 0.5]
  {
    var a: Vector := [1.0, 1.0];
    DotOfPair(a, a);
    DotOfPair(a, y);
    var t := Offset(y, a, 1.0);
    assert t == (1.0 - 2.0 * m) / 2.0;
    var r := ProjectOntoHyperplane(y, a, 1.0);
    assert r == Add(y, Scale(t, a));
    assert r[0] == 0.5 && r[1] == 0.5;
    assert r == [0.5, 0.5];
  }

  /** The identity matrix of size two maps (c, c) to itself. */
  lemma IdentityTimesPair(q: Matrix, x: Vector, c: real)
    requires q == [[1.0, 0.0], [0.0, 1.0]] && x == [c, c]
    ensures MatVec(q, x) == [c, c]
  {
    var qx := MatVec(q, x);
    DotOfPair(q[0], x);
    DotOfPair(q[1], x);
    assert qx[0] == c && qx[1] == c;
  }

  /** The coordinate-wise maximum of (1, 1) with itself. */
  lemma MaxOfOnes(u: Vector)
    requires u == [1.0, 1.0]
    ensures MaxElementwise(u, u) == [1.0, 1.0]
  {
    var mx := MaxElementwise(u, u);
    assert mx[0] == 1.0 && mx[1] == 1.0;
  }

  /** With Q = I, p = 0 and b = s = (1, 1) the direction at (c, c) is (2c + 1, 2c + 1). */
  lemma SubgradientAtSymmetric(prob: Problem, x: Vector, c: real)
    requires prob.q == [[1.0, 0.0], [0.0, 1.0]] && prob.p == [0.0, 0.0]
    requires prob.b == [1.0, 1.0] && prob.s == [1.0, 1.0] && |prob.a| == 2
    requires x == [c, c]
    ensures Dimensions(prob, 2)
    ensures Subgradient(prob, x) == [2.0 * c + 1.0, 2.0 * c + 1.0]
  {
    IdentityTimesPair(prob.q, x, c);
    MaxOfOnes(prob.b);
    var g := Subgradient(prob, x);
    assert g[0] == 2.0 * c + 1.0 && g[1] == 2.0 * c + 1.0;
  }

  /** Moving a symmetric point along a symmetric direction and projecting lands on (1/2, 1/2). */
  lemma SymmetricMoveThenProject(x: Vector, c: real, step: real, g: Vector, d: real)
    requires x == [c, c] && g == [d, d]
    ensures Dot([1.0, 1.0], [1.0, 1.0]) == 2.0
    ensures ProjectOntoHyperplane(Sub(x, Scale(step, g)), [1.0, 1.0], 1.0) == [0.5, 0.5]
  {
    var moved := Sub(x, Scale(step, g));
    var m := c - step * d;
    assert moved[0] == m && moved[1] == m;
    assert moved == [m, m];
    ProjectSymmetricOntoDiagonal(moved, m);
  }

  /** The driver instance can run any number of iterations from a point of dimension 2. */
  lemma TestProblemCanRun(n: nat)
    ensures CanRun(TestProblem(), 2, n)
  {
    DotOfPair([1.0, 1.0], [1.0, 1.0]);
    forall k | 0 <= k < n
      ensures StepDenominator(1.0, k) != 0.0
    {
    }
  }

  /** In the driver instance every iteration, from any symmetric point, lands on (1/2, 1/2). */
  lemma StepFromSymmetric(x: Vector, c: real, k: nat)
    requires x == [c, c]
    ensures CanRun(TestProblem(), 2, k + 1)
    ensures Step(TestProblem(), x, k) == [0.5, 0.5]
  {
    var prob := TestProblem();
    TestProblemCanRun(k + 1);
    assert StepDenominator(prob.gamma, k) != 0.0;
    SubgradientAtSymmetric(prob, x, c);
    var step := StepSize(prob.alpha, prob.gamma, k);
    SymmetricMoveThenProject(x, c, step, Subgradient(prob, x), 2.0 * c + 1.0);
  }

  /** The driver run reaches (1/2, 1/2) after the first iteration and stays there. */
  lemma TestRunSettles(n: nat)
    requires n >= 1
    ensures CanRun(TestProblem(), 2, n)
    ensures Iterate(TestProblem(), [0.0, 0.0], n) == [0.5, 0.5]
  {
    var prob := TestProblem();
    var z: Vector := [0.5, 0.5];
    TestProblemCanRun(n);
    StepFromSymmetric([0.0, 0.0], 0.0, 0);
    forall k | 1 <= k < n
      ensures Step(prob, z, k) == z
    {
      StepFromSymmetric(z, 0.5, k);
    }
    RunSettles(prob, [0.0, 0.0], z, n);
  }
}
