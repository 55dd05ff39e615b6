/** The two external collaborators an optimizer is built from, given only by
    their contracts: the loss (dimension, smoothness constant, gradient,
    objective value) and the constraint set (feasibility, the linear
    minimisation oracle `fw_subprob`, the Euclidean projection). */
module Collaborators {
  import opened Vectors

  datatype Option<T> = None | Some(value: T)

  /** The loss collaborator: `dim`, `L`, `grad` and `function_value`. */
  datatype Loss = Loss(dim: nat, L: real, grad: Vec -> Vec, functionValue: Vec -> real)

  /** A constraint set. `feasible` is its membership test; a constraint family
      may lack the oracle or the projection. */
  datatype Constraint = Constraint(
    feasible: Vec -> bool,
    fwSubprob: Option<Vec -> Vec>,
    projection: Option<Vec -> Vec>)

  /** What the optimizers rely on of a loss: a positive dimension, L > 0 and a
      gradient of the same dimension as its argument. */
  ghost predicate ValidLoss(loss: Loss) {
    loss.dim > 0 && loss.L > 0.0 &&
    forall p :: |p| == loss.dim ==> |loss.grad(p)| == loss.dim
  }

  /** What the optimizers rely on of a constraint set in dimension `dim`: the
      oracle and the projection, where present, return a feasible point of
      that dimension (for every argument, which is more than the callers
      need: they only pass vectors of that dimension). */
  ghost predicate ValidConstraint(c: Constraint, dim: nat) {
    (c.fwSubprob.Some? ==>
      forall g :: |c.fwSubprob.value(g)| == dim && c.feasible(c.fwSubprob.value(g))) &&
    (c.projection.Some? ==>
      forall p :: |c.projection.value(p)| == dim && c.feasible(c.projection.value(p)))
  }

  /** The set is convex: a convex combination of two feasible points is feasible. */
  ghost predicate Convex(c: Constraint) {
    forall t: real, a: Vec, b: Vec ::
      c.feasible(a) && c.feasible(b) && |a| == |b| && 0.0 <= t <= 1.0 ==> c.feasible(Mix(t, a, b))
  }

  /** The projection leaves a feasible point where it is, as the Euclidean
      projection onto the set does. */
  ghost predicate ProjectionFixesSet(c: Constraint) {
    c.projection.Some? ==> forall p :: c.feasible(p) ==> c.projection.value(p) == p
  }

  /** The Frank-Wolfe variants need the oracle; the gradient methods need the projection. */
  predicate SupportsFwSubprob(c: Constraint) { c.fwSubprob.Some? }
  predicate SupportsProjection(c: Constraint) { c.projection.Some? }

  /** The loss's gradient at p, of the loss's dimension. */
  function Grad(loss: Loss, p: Vec): (r: Vec)
    requires ValidLoss(loss) && |p| == loss.dim
    ensures |r| == loss.dim
  {
    loss.grad(p)
  }

  /** The oracle's vertex for gradient g: a feasible point. */
  function Vertex(c: Constraint, dim: nat, g: Vec): (r: Vec)
    requires ValidConstraint(c, dim) && SupportsFwSubprob(c) && |g| == dim
    ensures c.feasible(r) && |r| == dim
  {
    c.fwSubprob.value(g)
  }

  /** The projection of p: a feasible point. */
  function Project(c: Constraint, dim: nat, p: Vec): (r: Vec)
    requires ValidConstraint(c, dim) && SupportsProjection(c) && |p| == dim
    ensures c.feasible(r) && |r| == dim
  {
    c.projection.value(p)
  }

  /** The projected gradient step `projection(p - step * d)` of GD and NAG:
      feasible whatever p was. */
  function ProjectedStep(c: Constraint, dim: nat, p: Vec, step: real, d: Vec): (r: Vec)
    requires ValidConstraint(c, dim) && SupportsProjection(c) && |p| == dim && |d| == dim
    ensures c.feasible(r) && |r| == dim
  {
    Project(c, dim, Sub(p, Scale(step, d)))
  }

  /** A mixture of two feasible points with a step-size weight in (0, 1] is
      feasible in a convex set. */
  lemma MixFeasible(c: Constraint, t: real, a: Vec, b: Vec)
    requires Convex(c) && c.feasible(a) && c.feasible(b) && |a| == |b|
    requires 0.0 < t <= 1.0
    ensures c.feasible(Mix(t, a, b))
  {
  }

  /** The error the base class raises. */
  datatype Error = NotImplementedError

  datatype Result<T> = Ok(value: T) | Err(error: Error)
}
