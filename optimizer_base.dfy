/** The base class all optimizers share: the iterate, the counter and the two
    collaborators. Its own `step` is not implemented. */
module OptimizerBase {
  import opened Vectors
  import opened Collaborators

  class Optimizer {
    var x: Vec
    var nIter: nat
    const loss: Loss
    const constraint: Constraint

    /** Stores its own copy of the initial point (a `seq` is a value, so the
        caller's vector is never shared) and starts the counter at 0. */
    constructor (xInit: Vec, loss: Loss, constraint: Constraint)
      ensures x == xInit && nIter == 0
      ensures this.loss == loss && this.constraint == constraint
    {
      x := xInit;
      this.loss := loss;
      this.constraint := constraint;
      nIter := 0;
    }

    /** Stepping the base class always fails with "not implemented" and leaves
        the optimizer as it was. */
    method Step() returns (r: Result<real>)
      ensures r == Err(NotImplementedError)
    {
      r := Err(NotImplementedError);
    }
  }
}
