/** Nesterov's accelerated gradient (NAG) with projections: a lookahead point
    y, a short step 1/L for x and a growing long step α for the auxiliary v,
    both from the one gradient taken at y. */
module NesterovGradient {
  import opened Vectors
  import opened Schedule
  import opened Collaborators

  datatype NAGState = NAGState(x: Vec, y: Vec, v: Vec, lr: real, nIter: nat)

  /** The three vectors have the loss's dimension. */
  predicate Fits(dim: nat, s: NAGState) {
    |s.x| == dim && |s.y| == dim && |s.v| == dim
  }

  /** A fresh optimizer: x, y and v are copies of the initial point; lr = 1/L. */
  function Init(xInit: Vec, loss: Loss): NAGState
    requires loss.L > 0.0
  {
    NAGState(xInit, xInit, xInit, 1.0 / loss.L, 0)
  }

  /** The lookahead `δ v + (1-δ) x`, written in the source's operand order,
      is the convex combination (1-δ) x + δ v. */
  function Lookahead(delta: real, x: Vec, v: Vec): (y: Vec)
    requires |x| == |v|
    ensures y == Mix(delta, x, v)
  {
    SwappedMix(delta, x, v);
    Add(Scale(delta, v), Scale(1.0 - delta, x))
  }

  /** One NAG step at k = n_iter, in the source's order:
      y <- δ v + (1-δ) x;  x <- projection(y - lr grad(y));
      α = (k+2)/(2L);  v <- projection(v - α grad(y)). */
  function Next(loss: Loss, c: Constraint, s: NAGState): (r: NAGState)
    requires ValidLoss(loss) && ValidConstraint(c, loss.dim) && SupportsProjection(c)
    requires Fits(loss.dim, s)
    ensures Fits(loss.dim, r)
    ensures c.feasible(r.x) && c.feasible(r.v)
  {
    var delta := Delta(s.nIter);
    var y := Lookahead(delta, s.x, s.v);
    var gradY := Grad(loss, y);
    var x := ProjectedStep(c, loss.dim, y, s.lr, gradY);
    var alpha := Alpha(s.nIter, loss.L);
    var v := ProjectedStep(c, loss.dim, s.v, alpha, gradY);
    NAGState(x, y, v, s.lr, s.nIter + 1)
  }

  /** In a convex set the lookahead point is feasible whenever x and v are;
      the new x and v are projection results and always feasible. */
  lemma NextFeasible(loss: Loss, c: Constraint, s: NAGState)
    requires ValidLoss(loss) && ValidConstraint(c, loss.dim) && SupportsProjection(c)
    requires Fits(loss.dim, s)
    requires Convex(c) && c.feasible(s.x) && c.feasible(s.v)
    ensures c.feasible(Next(loss, c, s).y)
  {
    MixFeasible(c, Delta(s.nIter), s.x, s.v);
  }

  /** On the first step δ = 1 puts y on v, and α = 1/L equals lr, so the new x
      and the new v coincide. */
  lemma FirstStepXEqualsV(loss: Loss, c: Constraint, s: NAGState)
    requires ValidLoss(loss) && ValidConstraint(c, loss.dim) && SupportsProjection(c)
    requires Fits(loss.dim, s) && s.nIter == 0 && s.lr == 1.0 / loss.L
    ensures Next(loss, c, s).y == s.v
    ensures Next(loss, c, s).x == Next(loss, c, s).v
  {
    MixWeightOne(s.x, s.v);
    AlphaInTermsOfStep(0, loss.L);
  }

  /** When x and v are the same feasible point and the gradient vanishes
      there, nothing moves: y, x and v all land on that point again, given a
      projection that leaves feasible points in place. */
  lemma FixedAtFeasibleStationaryPoint(loss: Loss, c: Constraint, s: NAGState)
    requires ValidLoss(loss) && ValidConstraint(c, loss.dim) && SupportsProjection(c)
    requires Fits(loss.dim, s) && ProjectionFixesSet(c)
    requires s.x == s.v && c.feasible(s.x) && Grad(loss, s.x) == Zeros(loss.dim)
    ensures var r := Next(loss, c, s); r.x == s.x && r.y == s.x && r.v == s.x
  {
    MixSame(Delta(s.nIter), s.x);
    SubScaledZeros(s.lr, s.x);
    SubScaledZeros(Alpha(s.nIter, loss.L), s.x);
  }

  /** The NAG optimizer; `Step` reassigns y, x and v in that order. */
  class NAG {
    var x: Vec
    var y: Vec
    var v: Vec
    var nIter: nat
    const lr: real
    const loss: Loss
    const constraint: Constraint

    ghost predicate Valid()
      reads this
    {
      ValidLoss(loss) && ValidConstraint(constraint, loss.dim) && Fits(loss.dim, State()) &&
      lr == 1.0 / loss.L
    }

    function State(): NAGState
      reads this
    {
      NAGState(x, y, v, lr, nIter)
    }

    constructor (xInit: Vec, loss: Loss, constraint: Constraint)
      requires ValidLoss(loss) && ValidConstraint(constraint, loss.dim) && |xInit| == loss.dim
      ensures Valid() && State() == Init(xInit, loss)
      ensures this.loss == loss && this.constraint == constraint
    {
      x := xInit;
      this.loss := loss;
      this.constraint := constraint;
      nIter := 0;
      y := xInit;
      v := xInit;
      lr := 1.0 / loss.L;
    }

    /** One NAG step; returns the objective value at the new x. */
    method Step() returns (value: real)
      requires Valid() && SupportsProjection(constraint)
      modifies this
      ensures Valid()
      ensures State() == Next(loss, constraint, old(State()))
      ensures nIter == old(nIter) + 1
      ensures constraint.feasible(x) && constraint.feasible(v)
      ensures Convex(constraint) && constraint.feasible(old(x)) && constraint.feasible(old(v)) ==>
        constraint.feasible(y)
      ensures old(nIter) == 0 ==> x == v
      ensures value == loss.functionValue(x)
    {
      ghost var s := State();
      var delta := Delta(nIter);
      y := Lookahead(delta, x, v);
      var gradY := Grad(loss, y);
      x := ProjectedStep(constraint, loss.dim, y, lr, gradY);
      var alpha := Alpha(nIter, loss.L);
      v := ProjectedStep(constraint, loss.dim, v, alpha, gradY);
      value := loss.functionValue(x);
      nIter := nIter + 1;
      if Convex(constraint) && constraint.feasible(s.x) && constraint.feasible(s.v) {
        NextFeasible(loss, constraint, s);
      }
      if s.nIter == 0 { FirstStepXEqualsV(loss, constraint, s); }
    }
  }
}
