# Projected subgradient solver, modelled in Dafny

This project models the numerical core of `convex`. That core is a small Rust library exposed to Python. It approximately minimises

    f(x) = xᵀQx + pᵀx + Σᵢ max(xᵢ·bᵢ, xᵢ·sᵢ)   subject to   a·x = E

using projected subgradient descent. The solver runs exactly `max_iter` iterations. Iteration `k` (counted from 0) does four things:

- it forms the direction `2·Q·x + p + max(b, s)`;
- it moves against that direction by the step `alpha / (gamma + k)`;
- it projects the point back onto the hyperplane `{x : a·x = E}` with the closed form `x + t·a`, where `t = (E − a·x) / (a·a)`;
- it uses a penalty term `max(b, s)` that is taken coordinate-wise from the two penalty arms and does not depend on `x`.

The model uses exact arithmetic: `real` replaces `f64` everywhere. Vectors are `seq<real>` and the matrix `Q` is an n×n `seq<seq<real>>`. nalgebra's dot product, sum, difference, scaling and matrix-vector product are re-defined in `vectors.dfy` as small recursive functions.

Files:

- `vectors.dfy` (module `Vectors`): vector and matrix operations and their algebra. It proves linearity of the dot product in its second argument, symmetry, non-negativity of `u·u`, distribution of the matrix product over a difference, and Pythagoras.
- `projection.dfy` (module `Projection`): `project_onto_hyperplane` and its properties. These are feasibility, movement only along the normal, invariance of orthogonal components, the fixed-point characterisation, idempotence, and the fact that the projection is the nearest feasible point.
- `solver.dfy` (module `Solver`), which covers:
  - `max_elementwise`;
  - the step schedule;
  - one iteration (`Step`);
  - the run as a fold over the iteration index (`Iterate`);
  - the loop `projected_subgradient_descent`, as a method whose postcondition ties it to the fold.
- `driver.dfy` (module `Driver`): the problem instance of python/test.py. The solver is proved to settle at (1/2, 1/2) on it after the first iteration.

What the Rust code does, and how the model states it:

- **Preconditions.** `projected_subgradient_descent` validates nothing. A zero `a·a` yields NaN (when n > 0), `gamma + k = 0` gives a non-finite step (infinite, or NaN when `alpha = 0`), and mismatched dimensions make nalgebra panic. The model makes these conditions the precondition `CanRun`. The dimension and `a·a ≠ 0` clauses apply only when at least one iteration runs, because with `max_iter = 0` the code never reads `Q`, `p`, `b`, `s` or `a`. `max_iter` is a `usize` in the source, so it is a `nat` here.
- **The update.** The solver uses the direction `2·Q·x + p + max(b, s)`, where `max(b, s)` is constant in `x`. It uses the decaying step `alpha/(gamma + k)`.
- **Zero iterations.** With `max_iter = 0` the code returns `x0` unchanged, without projecting it. The model does the same for any problem data (`ZeroIterationsIdentity`).

## Model

| member | source | states |
|---|---|---|
| Solver.MaxElementwise | src/lib.rs:5-7 | the result has the inputs' length, and each entry is at least both inputs' entries and equal to one of them |
| Solver.MaxElementwiseLeastUpperBound | src/lib.rs:5-7 | any vector that is coordinate-wise above both inputs is also above their coordinate-wise maximum |
| Solver.MaxElementwiseCommutes | src/lib.rs:5-7 | swapping the two arguments does not change the result |
| Projection.ProjectOntoHyperplane | src/lib.rs:9-12 | when a·a ≠ 0 the result has the length of x and satisfies a·r = e, the constraint named in the doc comment |
| Projection.ProjectionMovesAlongNormal | src/lib.rs:10-11 | the projection changes x only along a: r − x = t·a with t = (e − a·x)/(a·a) |
| Projection.ProjectionKeepsOrthogonalComponents | src/lib.rs:10-11 | for every d orthogonal to a, d·r = d·x, so the projection leaves every component orthogonal to a unchanged |
| Projection.ProjectionFixesExactlyFeasible | src/lib.rs:10-11 | the projection leaves x unchanged exactly when x already lies on the hyperplane (both directions) |
| Projection.ProjectionIdempotent | src/lib.rs:9-12 | projecting a projected point changes nothing |
| Projection.ResidualOrthogonalToStep | src/lib.rs:10-11 | for every feasible y, y − r is orthogonal to the step r − x |
| Projection.ProjectionIsNearestPoint | src/lib.rs:9-12 | for every feasible y, ‖y − x‖² = ‖y − r‖² + ‖r − x‖², so r is the feasible point nearest to x |
| Solver.StepSize | src/lib.rs:32 | the step of iteration k, alpha/(gamma + k), multiplied by gamma + k gives back alpha |
| Solver.StepSizeDecays | src/lib.rs:32 | for alpha > 0 and gamma > 0 the step alpha/(gamma + k) is positive and strictly decreasing in k |
| Solver.Subgradient | src/lib.rs:29-31 | the direction 2·Q·x + p + max(b, s) has the length of x, and its entry i is 2·(row i of Q)·x + p[i] + max(b[i], s[i]) |
| Solver.SubgradientDifference | src/lib.rs:29-31 | the directions at two points differ by 2·Q·(x − y), so p and the added max(b, s) do not depend on the point |
| Solver.Step | src/lib.rs:29-34 | one iteration keeps the length of the iterate and always ends on the hyperplane a·x = e |
| Solver.Iterate | src/lib.rs:26-37 | the iterate after any number of iterations has the length of x0; matching dimensions are needed only when at least one iteration runs |
| Solver.ZeroIterationsIdentity | src/lib.rs:26-37 | with zero iterations the starting point is returned unchanged and no projection is applied, whatever the problem data and its dimensions |
| Solver.IterateFeasible | src/lib.rs:28-35 | after at least one iteration with a·a ≠ 0 the iterate satisfies a·x = e |
| Solver.IterateIsProjectionFixedPoint | src/lib.rs:28-35 | after at least one iteration the iterate is a fixed point of the projection |
| Solver.ProjectedSubgradientDescent | src/lib.rs:14-38 | the loop returns exactly the fold Iterate over max_iter iterations, of the length of x0; it returns x0 when max_iter = 0 and a point with a·x = e when max_iter ≥ 1 |
| Solver.RunSettles | src/lib.rs:26-37 | if the first iteration reaches z and every later iteration leaves z fixed, the run ends at z for any count ≥ 1 |
| Driver.TestRunSettles | python/test.py:6-21 | on the driver's instance (Q = I, p = 0, b = s = (1, 1), a = (1, 1), E = 1, alpha = gamma = 1, x0 = 0) every run of one or more iterations returns (1/2, 1/2) |

## Left out

- `optimize` (src/lib.rs:43-67) converts Python lists to matrices and vectors and back, and is not modelled. `DMatrix::from_row_slice` assumes the flat `Q` has n·n entries. The model takes the n×n matrix directly and requires its shape (`IsSquare` in `CanRun`) whenever an iteration runs.
- `sum_as_string` and the `#[pymodule]` registration (src/lib.rs:69-81) are left out. They are a smoke-test helper and binding glue with no solver logic.
- python/test.py prints the result and measures wall-clock time, so it is I/O and timing only. Only its problem instance is used, in `Driver.TestRunSettles`.
- IEEE-754 behaviour is not modelled: rounding, overflow, and NaN or infinity propagation. The arithmetic is exact over `real`. The two divisions that could produce NaN or infinity in the source are preconditions instead: `a·a ≠ 0` and `gamma + k ≠ 0`. With n = 0 and at least one iteration the source returns the empty vector; the model's `a·a ≠ 0` excludes that run.
- `f64::max` on NaN is not modelled, because exact reals have no NaN. `MaxElementwise` returns the larger of the two entries.
- The order of the scalar product is not modelled. The source computes `(2·Q)·x`, and the model computes `2·(Q·x)`. The two are equal over the reals.
- The matrix library's internals are not modelled. `Dot`, `Add`, `Sub`, `Scale` and `MatVec` are fresh definitions, not a model of that library.
- Convergence and optimality are not stated. The code claims neither.
