/** Vanilla Frank-Wolfe with the parameter-free step size. */
module FrankWolfe {
  import opened Vectors
  import opened Schedule
  import opened Collaborators

  /** The whole state of an FW optimizer besides its collaborators. */
  datatype FWState = FWState(x: Vec, nIter: nat)

  /** The state a fresh optimizer starts in. */
  function Init(xInit: Vec): FWState {
    FWState(xInit, 0)
  }

  /** One FW step: the gradient at x, its oracle vertex, then the
      δ-weighted move of x towards that vertex. */
  function Next(loss: Loss, c: Constraint, s: FWState): (r: FWState)
    requires ValidLoss(loss) && ValidConstraint(c, loss.dim) && SupportsFwSubprob(c)
    requires |s.x| == loss.dim
    ensures |r.x| == loss.dim
  {
    var gradX := Grad(loss, s.x);
    var v := Vertex(c, loss.dim, gradX);
    var delta := Delta(s.nIter);
    FWState(Mix(delta, s.x, v), s.nIter + 1)
  }

  /** The first step lands exactly on the oracle vertex for the initial
      gradient, whatever the initial point was otherwise. */
  lemma FirstStepIsVertex(loss: Loss, c: Constraint, s: FWState)
    requires ValidLoss(loss) && ValidConstraint(c, loss.dim) && SupportsFwSubprob(c)
    requires |s.x| == loss.dim && s.nIter == 0
    ensures Next(loss, c, s).x == Vertex(c, loss.dim, Grad(loss, s.x))
  {
    MixWeightOne(s.x, Vertex(c, loss.dim, Grad(loss, s.x)));
  }

  /** In a convex set, a step from a feasible iterate stays feasible. */
  lemma NextFeasible(loss: Loss, c: Constraint, s: FWState)
    requires ValidLoss(loss) && ValidConstraint(c, loss.dim) && SupportsFwSubprob(c)
    requires |s.x| == loss.dim
    requires Convex(c) && c.feasible(s.x)
    ensures c.feasible(Next(loss, c, s).x)
  {
    MixFeasible(c, Delta(s.nIter), s.x, Vertex(c, loss.dim, Grad(loss, s.x)));
  }

  /** An iterate stays where it is exactly when it is its own oracle vertex:
      the step moves x by δ times the gap between the vertex and x, and δ is
      never 0. */
  lemma FixedExactlyAtOwnVertex(loss: Loss, c: Constraint, s: FWState)
    requires ValidLoss(loss) && ValidConstraint(c, loss.dim) && SupportsFwSubprob(c)
    requires |s.x| == loss.dim
    ensures Next(loss, c, s).x == s.x <==> Vertex(c, loss.dim, Grad(loss, s.x)) == s.x
  {
    var delta := Delta(s.nIter);
    MixSame(delta, s.x);
    MixCancel(delta, s.x, Vertex(c, loss.dim, Grad(loss, s.x)), s.x);
  }

  /** The FW optimizer: the iterate and the counter, updated in place by `Step`. */
  class FW {
    var x: Vec
    var nIter: nat
    const loss: Loss
    const constraint: Constraint

    ghost predicate Valid()
      reads this
    {
      ValidLoss(loss) && ValidConstraint(constraint, loss.dim) && |x| == loss.dim
    }

    function State(): FWState
      reads this
    {
      FWState(x, nIter)
    }

    /** Stores a copy of the initial point and starts the counter at 0. */
    constructor (xInit: Vec, loss: Loss, constraint: Constraint)
      requires ValidLoss(loss) && ValidConstraint(constraint, loss.dim) && |xInit| == loss.dim
      ensures Valid() && State() == Init(xInit)
      ensures this.loss == loss && this.constraint == constraint
    {
      x := xInit;
      this.loss := loss;
      this.constraint := constraint;
      nIter := 0;
    }

    /** Advances x by one FW step, increments the counter and returns the
        objective value at the new x. */
    method Step() returns (value: real)
      requires Valid() && SupportsFwSubprob(constraint)
      modifies this
      ensures Valid()
      ensures State() == Next(loss, constraint, old(State()))
      ensures nIter == old(nIter) + 1
      ensures old(nIter) == 0 ==> x == Vertex(constraint, loss.dim, Grad(loss, old(x)))
      ensures Convex(constraint) && constraint.feasible(old(x)) ==> constraint.feasible(x)
      ensures value == loss.functionValue(x)
    {
      ghost var s := State();
      var gradX := Grad(loss, x);
      var v := Vertex(constraint, loss.dim, gradX);
      var delta := Delta(nIter);
      x := Mix(delta, x, v);
      nIter := nIter + 1;
      value := loss.functionValue(x);
      if s.nIter == 0 { FirstStepIsVertex(loss, constraint, s); }
      if Convex(constraint) && constraint.feasible(s.x) { NextFeasible(loss, constraint, s); }
    }
  }
}
