/** Projected gradient descent with the fixed step size 1/L. */
module ProjectedGradient {
  import opened Vectors
  import opened Collaborators

  datatype GDState = GDState(x: Vec, lr: real, nIter: nat)

  /** A fresh optimizer: the initial point and the step size 1/L. */
  function Init(xInit: Vec, loss: Loss): GDState
    requires loss.L > 0.0
  {
    GDState(xInit, 1.0 / loss.L, 0)
  }

  /** One GD step: x <- projection(x - lr * grad(x)). The new iterate is
      feasible whatever the old one was, and the step size never changes. */
  function Next(loss: Loss, c: Constraint, s: GDState): (r: GDState)
    requires ValidLoss(loss) && ValidConstraint(c, loss.dim) && SupportsProjection(c)
    requires |s.x| == loss.dim
    ensures |r.x| == loss.dim && c.feasible(r.x)
    ensures r.lr == s.lr
  {
    var gradX := Grad(loss, s.x);
    GDState(ProjectedStep(c, loss.dim, s.x, s.lr, gradX), s.lr, s.nIter + 1)
  }

  /** A feasible point where the gradient vanishes is a fixed point, given a
      projection that leaves feasible points in place. */
  lemma FixedAtFeasibleStationaryPoint(loss: Loss, c: Constraint, s: GDState)
    requires ValidLoss(loss) && ValidConstraint(c, loss.dim) && SupportsProjection(c)
    requires |s.x| == loss.dim && ProjectionFixesSet(c)
    requires c.feasible(s.x) && Grad(loss, s.x) == Zeros(loss.dim)
    ensures Next(loss, c, s) == s.(nIter := s.nIter + 1)
  {
    SubScaledZeros(s.lr, s.x);
  }

  /** The GD optimizer; `lr` is fixed at construction. */
  class GD {
    var x: Vec
    var nIter: nat
    const lr: real
    const loss: Loss
    const constraint: Constraint

    ghost predicate Valid()
      reads this
    {
      ValidLoss(loss) && ValidConstraint(constraint, loss.dim) && |x| == loss.dim &&
      lr == 1.0 / loss.L
    }

    function State(): GDState
      reads this
    {
      GDState(x, lr, nIter)
    }

    constructor (xInit: Vec, loss: Loss, constraint: Constraint)
      requires ValidLoss(loss) && ValidConstraint(constraint, loss.dim) && |xInit| == loss.dim
      ensures Valid() && State() == Init(xInit, loss)
      ensures this.loss == loss && this.constraint == constraint
    {
      x := xInit;
      this.loss := loss;
      this.constraint := constraint;
      nIter := 0;
      lr := 1.0 / loss.L;
    }

    /** One GD step; returns the objective value at the new x. */
    method Step() returns (value: real)
      requires Valid() && SupportsProjection(constraint)
      modifies this
      ensures Valid()
      ensures State() == Next(loss, constraint, old(State()))
      ensures x == ProjectedStep(constraint, loss.dim, old(x), 1.0 / loss.L, Grad(loss, old(x)))
      ensures nIter == old(nIter) + 1
      ensures constraint.feasible(x)
      ensures value == loss.functionValue(x)
    {
      var gradX := Grad(loss, x);
      x := ProjectedStep(constraint, loss.dim, x, lr, gradX);
      value := loss.functionValue(x);
      nIter := nIter + 1;
    }
  }
}
