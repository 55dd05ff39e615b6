/** Extrapolated Frank-Wolfe (ExtraFW): two gradients and two oracle calls per
    step. A transient probe pair (ĝ, v̂) moves x; the persisted pair (g, v),
    recomputed from the gradient at the new x, is what the next step reads. */
module ExtrapolatedFrankWolfe {
  import opened Vectors
  import opened Schedule
  import opened Collaborators
  import FrankWolfe

  datatype ExtraFWState = ExtraFWState(x: Vec, y: Vec, v: Vec, g: Vec, nIter: nat)

  /** All four vectors have the loss's dimension. */
  predicate Fits(dim: nat, s: ExtraFWState) {
    |s.x| == dim && |s.y| == dim && |s.v| == dim && |s.g| == dim
  }

  /** A fresh optimizer: x, y and v are copies of the initial point, g starts at zero. */
  function Init(xInit: Vec, dim: nat): ExtraFWState {
    ExtraFWState(xInit, xInit, xInit, Zeros(dim), 0)
  }

  /** The transient probe average ĝ = (1-δ) g + δ grad(y) of a step from s. */
  function ProbeGradient(loss: Loss, s: ExtraFWState): (gHat: Vec)
    requires ValidLoss(loss) && Fits(loss.dim, s)
    ensures |gHat| == loss.dim
  {
    var delta := Delta(s.nIter);
    Mix(delta, s.g, Grad(loss, Mix(delta, s.x, s.v)))
  }

  /** One ExtraFW step, in the source's order: y from the previous x and v; the
      probe ĝ and its vertex v̂; x moved towards v̂; then the persisted g from
      the gradient at the new x and the persisted v as its vertex. */
  function Next(loss: Loss, c: Constraint, s: ExtraFWState): (r: ExtraFWState)
    requires ValidLoss(loss) && ValidConstraint(c, loss.dim) && SupportsFwSubprob(c)
    requires Fits(loss.dim, s)
    ensures Fits(loss.dim, r)
    ensures c.feasible(r.v)
  {
    var delta := Delta(s.nIter);
    var y := Mix(delta, s.x, s.v);
    var gHat := ProbeGradient(loss, s);
    var vHat := Vertex(c, loss.dim, gHat);
    var x := Mix(delta, s.x, vHat);
    var gradX := Grad(loss, x);
    var g := Mix(delta, s.g, gradX);
    var v := Vertex(c, loss.dim, g);
    ExtraFWState(x, y, v, g, s.nIter + 1)
  }

  /** The persisted g coincides with the transient ĝ exactly when the gradients
      at the new iterate and at the lookahead point coincide: the two are kept
      apart, and the persisted one follows the new iterate. */
  lemma PersistedEqualsProbeIff(loss: Loss, c: Constraint, s: ExtraFWState)
    requires ValidLoss(loss) && ValidConstraint(c, loss.dim) && SupportsFwSubprob(c)
    requires Fits(loss.dim, s)
    ensures var r := Next(loss, c, s);
      r.g == ProbeGradient(loss, s) <==> Grad(loss, r.x) == Grad(loss, r.y)
  {
    var r := Next(loss, c, s);
    MixCancel(Delta(s.nIter), s.g, Grad(loss, r.x), Grad(loss, r.y));
  }

  /** In a convex set, a step from a state whose x and v are feasible keeps
      the lookahead point, the iterate and the vertex feasible. */
  lemma NextFeasible(loss: Loss, c: Constraint, s: ExtraFWState)
    requires ValidLoss(loss) && ValidConstraint(c, loss.dim) && SupportsFwSubprob(c)
    requires Fits(loss.dim, s)
    requires Convex(c) && c.feasible(s.x) && c.feasible(s.v)
    ensures var r := Next(loss, c, s); c.feasible(r.y) && c.feasible(r.x) && c.feasible(r.v)
  {
    var delta := Delta(s.nIter);
    MixFeasible(c, delta, s.x, s.v);
    var vHat := Vertex(c, loss.dim, ProbeGradient(loss, s));
    MixFeasible(c, delta, s.x, vHat);
  }

  /** The lazy zero g is sound: on the first step the value g holds has no
      effect on anything the step produces. */
  lemma FirstStepIgnoresG(loss: Loss, c: Constraint, s: ExtraFWState, g0: Vec)
    requires ValidLoss(loss) && ValidConstraint(c, loss.dim) && SupportsFwSubprob(c)
    requires Fits(loss.dim, s) && |g0| == loss.dim && s.nIter == 0
    ensures Next(loss, c, s.(g := g0)) == Next(loss, c, s)
  {
    var y := Mix(1.0, s.x, s.v);
    MixWeightOne(s.g, Grad(loss, y));
    MixWeightOne(g0, Grad(loss, y));
    var x := Mix(1.0, s.x, Vertex(c, loss.dim, Grad(loss, y)));
    MixWeightOne(s.g, Grad(loss, x));
    MixWeightOne(g0, Grad(loss, x));
  }

  /** From a fresh optimizer, the first ExtraFW iterate is the first vanilla FW
      iterate from the same initial point. */
  lemma FirstStepMatchesFrankWolfe(loss: Loss, c: Constraint, xInit: Vec)
    requires ValidLoss(loss) && ValidConstraint(c, loss.dim) && SupportsFwSubprob(c)
    requires |xInit| == loss.dim
    ensures Next(loss, c, Init(xInit, loss.dim)).x == FrankWolfe.Next(loss, c, FrankWolfe.Init(xInit)).x
  {
    var s := Init(xInit, loss.dim);
    MixWeightOne(s.x, s.v);
    MixWeightOne(s.g, Grad(loss, xInit));
    FrankWolfe.FirstStepIsVertex(loss, c, FrankWolfe.Init(xInit));
    MixWeightOne(s.x, Vertex(c, loss.dim, Grad(loss, xInit)));
  }

  /** A state whose points coincide, whose persisted g is the gradient there
      and whose oracle vertex for g is that point again is a fixed point of
      the recurrence: probe and persisted pair agree and only the counter
      moves. */
  lemma FixedAtConsistentState(loss: Loss, c: Constraint, s: ExtraFWState)
    requires ValidLoss(loss) && ValidConstraint(c, loss.dim) && SupportsFwSubprob(c)
    requires Fits(loss.dim, s)
    requires s.y == s.x && s.v == s.x && s.g == Grad(loss, s.x)
    requires Vertex(c, loss.dim, s.g) == s.x
    ensures Next(loss, c, s) == s.(nIter := s.nIter + 1)
  {
    var delta := Delta(s.nIter);
    MixSame(delta, s.x);
    MixSame(delta, s.g);
  }

  /** The ExtraFW optimizer; `Step` reassigns y, x, g and v in that order and
      keeps the probe ĝ, v̂ in locals only. */
  class ExtraFW {
    var x: Vec
    var y: Vec
    var v: Vec
    var g: Vec
    var nIter: nat
    const loss: Loss
    const constraint: Constraint

    ghost predicate Valid()
      reads this
    {
      ValidLoss(loss) && ValidConstraint(constraint, loss.dim) && Fits(loss.dim, State())
    }

    /** The points that stay in the set, given a convex set and a feasible start. */
    ghost predicate Feasible()
      reads this
    {
      constraint.feasible(x) && constraint.feasible(y) && constraint.feasible(v)
    }

    function State(): ExtraFWState
      reads this
    {
      ExtraFWState(x, y, v, g, nIter)
    }

    constructor (xInit: Vec, loss: Loss, constraint: Constraint)
      requires ValidLoss(loss) && ValidConstraint(constraint, loss.dim) && |xInit| == loss.dim
      ensures Valid() && State() == Init(xInit, loss.dim)
      ensures this.loss == loss && this.constraint == constraint
      ensures constraint.feasible(xInit) ==> Feasible()
    {
      x := xInit;
      this.loss := loss;
      this.constraint := constraint;
      nIter := 0;
      y := xInit;
      v := xInit;
      g := Zeros(loss.dim);
    }

    /** One ExtraFW step; returns the objective value at the new x. */
    method Step() returns (value: real)
      requires Valid() && SupportsFwSubprob(constraint)
      modifies this
      ensures Valid()
      ensures State() == Next(loss, constraint, old(State()))
      ensures nIter == old(nIter) + 1
      ensures Convex(constraint) && old(Feasible()) ==> Feasible()
      ensures value == loss.functionValue(x)
    {
      ghost var s := State();
      var delta := Delta(nIter);
      y := Mix(delta, x, v);
      var gradY := Grad(loss, y);
      var gHat := Mix(delta, g, gradY);
      var vHat := Vertex(constraint, loss.dim, gHat);
      x := Mix(delta, x, vHat);
      var gradX := Grad(loss, x);
      g := Mix(delta, g, gradX);
      v := Vertex(constraint, loss.dim, g);
      nIter := nIter + 1;
      value := loss.functionValue(x);
      if Convex(constraint) && constraint.feasible(s.x) && constraint.feasible(s.v) {
        NextFeasible(loss, constraint, s);
      }
    }
  }
}
