/** Accelerated Frank-Wolfe (AFW) with the parameter-free step size: the
    gradient is taken at a lookahead point y and averaged into g before the
    oracle is asked. */
module AcceleratedFrankWolfe {
  import opened Vectors
  import opened Schedule
  import opened Collaborators

  datatype AFWState = AFWState(x: Vec, y: Vec, v: Vec, g: Vec, nIter: nat)

  /** All four vectors have the loss's dimension. */
  predicate Fits(dim: nat, s: AFWState) {
    |s.x| == dim && |s.y| == dim && |s.v| == dim && |s.g| == dim
  }

  /** A fresh optimizer: y is a copy of the initial point, v and g start at zero. */
  function Init(xInit: Vec, dim: nat): AFWState {
    AFWState(xInit, xInit, Zeros(dim), Zeros(dim), 0)
  }

  /** One AFW step, in the source's order:
      y <- (1-δ) y + δ v;  g <- (1-δ) g + δ grad(y);  v <- oracle(g);  x <- (1-δ) x + δ v. */
  function Next(loss: Loss, c: Constraint, s: AFWState): (r: AFWState)
    requires ValidLoss(loss) && ValidConstraint(c, loss.dim) && SupportsFwSubprob(c)
    requires Fits(loss.dim, s)
    ensures Fits(loss.dim, r)
    ensures c.feasible(r.v)
  {
    var delta := Delta(s.nIter);
    var y := Mix(delta, s.y, s.v);
    var gradY := Grad(loss, y);
    var g := Mix(delta, s.g, gradY);
    var v := Vertex(c, loss.dim, g);
    var x := Mix(delta, s.x, v);
    AFWState(x, y, v, g, s.nIter + 1)
  }

  /** In a convex set, a step from a feasible iterate yields a feasible iterate
      (the new x mixes the old one with a fresh vertex). */
  lemma NextFeasible(loss: Loss, c: Constraint, s: AFWState)
    requires ValidLoss(loss) && ValidConstraint(c, loss.dim) && SupportsFwSubprob(c)
    requires Fits(loss.dim, s)
    requires Convex(c) && c.feasible(s.x)
    ensures c.feasible(Next(loss, c, s).x)
  {
    MixFeasible(c, Delta(s.nIter), s.x, Next(loss, c, s).v);
  }

  /** The lazy zero g is sound: on the first step the value g holds has no
      effect on anything the step produces. */
  lemma FirstStepIgnoresG(loss: Loss, c: Constraint, s: AFWState, g0: Vec)
    requires ValidLoss(loss) && ValidConstraint(c, loss.dim) && SupportsFwSubprob(c)
    requires Fits(loss.dim, s) && |g0| == loss.dim && s.nIter == 0
    ensures Next(loss, c, s.(g := g0)) == Next(loss, c, s)
  {
    var gradY := Grad(loss, Mix(1.0, s.y, s.v));
    MixWeightOne(s.g, gradY);
    MixWeightOne(g0, gradY);
  }

  /** The lazy zero v is not neutral: v carries the weight δ = 1 on the first
      step, so the first lookahead point is v itself and the first step
      depends on nothing but v. Whatever x and y held is discarded. */
  lemma FirstStepDependsOnlyOnV(loss: Loss, c: Constraint, s: AFWState, t: AFWState)
    requires ValidLoss(loss) && ValidConstraint(c, loss.dim) && SupportsFwSubprob(c)
    requires Fits(loss.dim, s) && Fits(loss.dim, t)
    requires s.nIter == 0 && t.nIter == 0 && s.v == t.v
    ensures Next(loss, c, s).y == s.v
    ensures Next(loss, c, s) == Next(loss, c, t)
  {
    MixWeightOne(s.y, s.v);
    MixWeightOne(t.y, t.v);
    var gradY := Grad(loss, s.v);
    MixWeightOne(s.g, gradY);
    MixWeightOne(t.g, gradY);
    var v := Vertex(c, loss.dim, gradY);
    MixWeightOne(s.x, v);
    MixWeightOne(t.x, v);
  }

  /** Consequently, two AFW optimizers built from different initial points
      are in the same state after their first step, whose gradient is taken
      at the zero vector. */
  lemma FirstStepIgnoresInitialPoint(loss: Loss, c: Constraint, x1: Vec, x2: Vec)
    requires ValidLoss(loss) && ValidConstraint(c, loss.dim) && SupportsFwSubprob(c)
    requires |x1| == loss.dim && |x2| == loss.dim
    ensures Next(loss, c, Init(x1, loss.dim)).y == Zeros(loss.dim)
    ensures Next(loss, c, Init(x1, loss.dim)) == Next(loss, c, Init(x2, loss.dim))
  {
    FirstStepDependsOnlyOnV(loss, c, Init(x1, loss.dim), Init(x2, loss.dim));
  }

  /** A state whose points coincide, whose average g is the gradient there and
      whose oracle vertex for g is that point again is a fixed point of the
      recurrence: only the counter moves. */
  lemma FixedAtConsistentState(loss: Loss, c: Constraint, s: AFWState)
    requires ValidLoss(loss) && ValidConstraint(c, loss.dim) && SupportsFwSubprob(c)
    requires Fits(loss.dim, s)
    requires s.y == s.x && s.v == s.x && s.g == Grad(loss, s.x)
    requires Vertex(c, loss.dim, s.g) == s.x
    ensures Next(loss, c, s) == s.(nIter := s.nIter + 1)
  {
    var delta := Delta(s.nIter);
    MixSame(delta, s.x);
    MixSame(delta, s.g);
  }

  /** The AFW optimizer; `Step` reassigns y, g, v and x in that order. */
  class AFW {
    var x: Vec
    var y: Vec
    var v: Vec
    var g: Vec
    var nIter: nat
    const loss: Loss
    const constraint: Constraint

    ghost predicate Valid()
      reads this
    {
      ValidLoss(loss) && ValidConstraint(constraint, loss.dim) && Fits(loss.dim, State())
    }

    function State(): AFWState
      reads this
    {
      AFWState(x, y, v, g, nIter)
    }

    /** Copies the initial point into x and y; v and g start at zero. */
    constructor (xInit: Vec, loss: Loss, constraint: Constraint)
      requires ValidLoss(loss) && ValidConstraint(constraint, loss.dim) && |xInit| == loss.dim
      ensures Valid() && State() == Init(xInit, loss.dim)
      ensures this.loss == loss && this.constraint == constraint
    {
      x := xInit;
      this.loss := loss;
      this.constraint := constraint;
      nIter := 0;
      y := xInit;
      v := Zeros(loss.dim);
      g := Zeros(loss.dim);
    }

    /** One AFW step; returns the objective value at the new x. */
    method Step() returns (value: real)
      requires Valid() && SupportsFwSubprob(constraint)
      modifies this
      ensures Valid()
      ensures State() == Next(loss, constraint, old(State()))
      ensures nIter == old(nIter) + 1
      ensures constraint.feasible(v)
      ensures Convex(constraint) && constraint.feasible(old(x)) ==> constraint.feasible(x)
      ensures value == loss.functionValue(x)
    {
      ghost var s := State();
      var delta := Delta(nIter);
      y := Mix(delta, y, v);
      var gradY := Grad(loss, y);
      g := Mix(delta, g, gradY);
      v := Vertex(constraint, loss.dim, g);
      x := Mix(delta, x, v);
      nIter := nIter + 1;
      value := loss.functionValue(x);
      if Convex(constraint) && constraint.feasible(s.x) { NextFeasible(loss, constraint, s); }
    }
  }
}
