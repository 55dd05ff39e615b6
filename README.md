# Frank-Wolfe and gradient optimizers of AFW-ExtraFW, in Dafny

This project models `optimizer.py`. That file holds the base class `Optimizer` and five iterative optimizers built on it:

- vanilla Frank-Wolfe (`FW`);
- accelerated Frank-Wolfe (`AFW`);
- extrapolated Frank-Wolfe (`ExtraFW`);
- projected gradient descent (`GD`);
- Nesterov's accelerated gradient with projections (`NAG`).

Each optimizer holds an iterate `x`, a counter `n_iter` and, depending on the variant, auxiliary vectors `y`, `v`, `g` and a step size `lr`. Every call to `step` is one transition of a small deterministic state machine that reassigns the fields in a fixed order and increments the counter. FW, AFW, ExtraFW and NAG derive the weight δ = 2/(n_iter+2) from the counter before incrementing it (FW only after its gradient and oracle calls). NAG also derives its long step α from the counter, after its x update. GD uses the fixed `lr = 1/L` and reads the counter only to increment it. Along the way it calls two collaborators:

- a loss, with `grad`, `function_value`, `L` and `dim`;
- a constraint set, with a linear-minimisation oracle `fw_subprob` and a Euclidean `projection`.

## How the model is built

- **Vectors** (`vectors.dfy`). A column vector of shape (dim, 1) is an exact `seq<real>` of length dim. It is combined with `Scale`, `Add`, `Sub` and the convex combination `Mix(t, a, b) = (1-t) a + t b`. The `...At` lemmas give each entry.
- **Schedule** (`schedule.dfy`). The weight δ and NAG's long step α = (k+2)/(2L).
- **Collaborators** (`collaborators.dfy`). The loss and the constraint set are datatypes holding total functions and are known only through their contracts:
  - `ValidLoss`: the dimension is positive, L > 0, and the gradient keeps the dimension;
  - `ValidConstraint`: the oracle and the projection, where the set has them, return feasible points of the set's dimension;
  - `Convex`: a convex combination of feasible points is feasible;
  - `ProjectionFixesSet`: the projection leaves feasible points in place. Only the fixed-point lemmas of GD and NAG use it.
- **One module per optimizer.** Each has three parts:
  - a state datatype;
  - a pure `Next` function, the recurrence in the source's order;
  - a class with the source's fields. Its constructor initialises them as the source does. Its `Step` method reassigns them in the source's order and ensures `State() == Next(loss, constraint, old(State()))`.

  The lemmas about `Next` state what the recurrences promise. The `Step` ensures carry the counter discipline and feasibility facts over to the objects.
- **The base class.** `OptimizerBase.Optimizer` alone models `optimizer.py:4-21`. The variant classes do not extend it (Dafny classes here do not inherit); each declares `x`, `nIter`, `loss` and `constraint` again and its constructor initialises them as the base constructor does.
- **Aliasing.** `x_init.copy()` copies the caller's array. The model gets this for free: a `seq` is a value, so the caller's vector is never shared.

### AFW's zero `v`

The comment at `optimizer.py:81` justifies the lazy zero `g` by δ = 1 on the first step. `v` is also initialised to zero (line 82). The update `y = (1-δ) y + δ v` (line 89) weights `v` by δ, not by 1-δ. So on the first step the zero `v` is not neutral:

- the first lookahead point is the zero vector;
- the first AFW step depends on nothing but `v`;
- `x_init` is discarded entirely.

A reading that treats the zero `v` like the zero `g` does not match the code. The model follows the code, and `AcceleratedFrankWolfe.FirstStepDependsOnlyOnV` and `AcceleratedFrankWolfe.FirstStepIgnoresInitialPoint` state this behaviour.

## Model

| member | source | states |
|---|---|---|
| Vectors.Zeros | optimizer.py:41-83 | The lazily initialised `np.zeros((dim,1))` of lines 41, 82 and 83 is a vector of length dim; `Vectors.ZerosAt` gives each entry as 0. |
| Vectors.Mix | optimizer.py:47-128 | The convex combination `(1 - delta) * a + delta * b` of lines 47, 51, 55, 57, 89, 93, 97 and 128 keeps the operands' length; `Vectors.MixAt` gives each entry as `(1-t) a[i] + t b[i]`. |
| Vectors.MixWeightOne | optimizer.py:46-47 | With weight 1 the first operand of a convex combination contributes nothing, whatever it holds. This is why the lazy zero terms are sound. |
| Vectors.MixSame | optimizer.py:128 | Combining a vector with itself gives it back for every weight. |
| Vectors.MixCancel | optimizer.py:51-57 | With a nonzero weight, two combinations with the same first operand are equal exactly when their second operands are equal. |
| Vectors.SwappedMix | optimizer.py:182 | NAG's `δ v + (1-δ) x`, written in the source's operand order, is the convex combination `(1-δ) x + δ v`. |
| Vectors.SubScaledZeros | optimizer.py:154 | A step of any length along the zero vector leaves a point unchanged. |
| Schedule.Delta | optimizer.py:46 | The weight δ = 2/(n+2) lies in (0, 1]. |
| Schedule.DeltaIsOneExactlyAtStart | optimizer.py:40-46 | δ equals 1 if and only if the counter is 0, in both directions. |
| Schedule.OneMinusDelta | optimizer.py:47 | The complementary weight 1-δ is n/(n+2), so it vanishes only on the first step. |
| Schedule.DeltaDecreasing | optimizer.py:125 | δ strictly decreases as the counter grows. |
| Schedule.Alpha | optimizer.py:187 | NAG's long step (k+2)/(2L) is positive. |
| Schedule.AlphaInTermsOfStep | optimizer.py:176-187 | α equals (k+2)/2 times lr = 1/L. It is never below lr, equals lr exactly when k = 0, and grows by 1/(2L) per iteration. |
| Collaborators.Grad | optimizer.py:119 | The gradient has the loss's dimension. |
| Collaborators.Vertex | optimizer.py:122 | The oracle's answer is a feasible point of the loss's dimension. |
| Collaborators.Project | optimizer.py:186 | A projection result is a feasible point of the loss's dimension. |
| Collaborators.ProjectedStep | optimizer.py:154 | `projection(p - step * d)` is feasible whatever `p` was. |
| Collaborators.MixFeasible | optimizer.py:128 | In a convex set, a combination of two feasible points with weight δ in (0, 1] is feasible. |
| OptimizerBase.Optimizer.constructor | optimizer.py:5-17 | The iterate is the initial point, the counter is 0, and the loss and constraint are stored. |
| OptimizerBase.Optimizer.Step | optimizer.py:20-21 | The base class's step always fails with "not implemented" and changes nothing. |
| FrankWolfe.Init | optimizer.py:14-17 | The initial state the FW constructor ensures: the initial point and counter 0. |
| FrankWolfe.Next | optimizer.py:117-129 | One FW step keeps the iterate's dimension. |
| FrankWolfe.FirstStepIsVertex | optimizer.py:119-128 | After the first step the iterate is the oracle vertex for the initial gradient, whatever the initial point was otherwise. |
| FrankWolfe.NextFeasible | optimizer.py:128 | In a convex set, a step from a feasible iterate stays feasible. |
| FrankWolfe.FixedExactlyAtOwnVertex | optimizer.py:119-128 | The iterate is left unchanged if and only if it is its own oracle vertex. |
| FrankWolfe.FW.constructor | optimizer.py:104-114 | The iterate is the initial point and the counter is 0. |
| FrankWolfe.FW.Step | optimizer.py:117-131 | The new state is one FW step from the old one and the counter grows by exactly 1. After the first step x is the initial vertex. A feasible x stays feasible in a convex set. The returned value is the objective at the new x. |
| AcceleratedFrankWolfe.Init | optimizer.py:78-83 | The initial state the AFW constructor ensures: x and y the initial point, v and g zero, counter 0. |
| AcceleratedFrankWolfe.Next | optimizer.py:86-98 | One AFW step keeps all four dimensions and yields a feasible vertex v. |
| AcceleratedFrankWolfe.NextFeasible | optimizer.py:97 | In a convex set, a step from a feasible iterate yields a feasible iterate. |
| AcceleratedFrankWolfe.FirstStepIgnoresG | optimizer.py:81-93 | On the first step the value held in g has no effect on anything the step produces. |
| AcceleratedFrankWolfe.FirstStepDependsOnlyOnV | optimizer.py:88-97 | On the first step the lookahead point is v. Two states with the same v step to the same state, whatever x, y and g hold. |
| AcceleratedFrankWolfe.FirstStepIgnoresInitialPoint | optimizer.py:78-90 | From a fresh optimizer the first gradient is taken at the zero vector. Fresh optimizers with different initial points agree after one step. |
| AcceleratedFrankWolfe.FixedAtConsistentState | optimizer.py:86-97 | Suppose x = y = v, g is the gradient there, and the oracle's vertex for g is x again. Then the step changes nothing but the counter. |
| AcceleratedFrankWolfe.AFW.constructor | optimizer.py:66-83 | x and y are the initial point, v and g are zero, and the counter is 0. |
| AcceleratedFrankWolfe.AFW.Step | optimizer.py:86-100 | y, g, v and x are updated in that order as one AFW step, and no other field changes. The counter grows by exactly 1 and v is feasible. A feasible x stays feasible in a convex set. The returned value is the objective at the new x. |
| ExtrapolatedFrankWolfe.Init | optimizer.py:37-41 | The initial state the ExtraFW constructor ensures: x, y and v the initial point, g zero, counter 0. |
| ExtrapolatedFrankWolfe.ProbeGradient | optimizer.py:51 | The transient ĝ has the loss's dimension. `Next` passes it to the oracle for v̂ and never stores it; `PersistedEqualsProbeIff` relates it to the stored g. |
| ExtrapolatedFrankWolfe.Next | optimizer.py:44-60 | One ExtraFW step keeps all four dimensions and yields a feasible persisted vertex v. |
| ExtrapolatedFrankWolfe.PersistedEqualsProbeIff | optimizer.py:51-57 | The persisted g equals the transient ĝ exactly when the gradients at the new iterate and at the lookahead point are equal. So ĝ is never what is stored, except in that case. |
| ExtrapolatedFrankWolfe.NextFeasible | optimizer.py:47-58 | In a convex set, a step from feasible x and v keeps the lookahead point, the iterate and the vertex feasible. |
| ExtrapolatedFrankWolfe.FirstStepIgnoresG | optimizer.py:40-57 | On the first step the value held in g has no effect on anything the step produces. |
| ExtrapolatedFrankWolfe.FirstStepMatchesFrankWolfe | optimizer.py:37-55 | From a fresh optimizer, the first ExtraFW iterate is the first FW iterate from the same initial point. |
| ExtrapolatedFrankWolfe.FixedAtConsistentState | optimizer.py:44-58 | Suppose x = y = v, g is the gradient there, and the oracle's vertex for g is x again. Then the step changes nothing but the counter. |
| ExtrapolatedFrankWolfe.ExtraFW.constructor | optimizer.py:25-41 | x, y and v are the initial point, g is zero, and the counter is 0. If the initial point is feasible, so are x, y and v. |
| ExtrapolatedFrankWolfe.ExtraFW.Step | optimizer.py:44-62 | y, x, g and v are updated in that order as one ExtraFW step, with ĝ and v̂ kept out of the fields. The counter grows by exactly 1. In a convex set x, y and v stay feasible. The returned value is the objective at the new x. |
| ProjectedGradient.Init | optimizer.py:145-147 | The initial state the GD constructor ensures: the initial point, lr = 1/L, counter 0. |
| ProjectedGradient.Next | optimizer.py:149-156 | One GD step yields a feasible iterate of the right dimension from any state and keeps the step size. |
| ProjectedGradient.FixedAtFeasibleStationaryPoint | optimizer.py:151-154 | A feasible point with zero gradient is a fixed point when the projection leaves feasible points in place. |
| ProjectedGradient.GD.constructor | optimizer.py:135-147 | The iterate is the initial point, lr = 1/L, and the counter is 0. |
| ProjectedGradient.GD.Step | optimizer.py:149-157 | The new x is `projection(x - (1/L) grad(x))` and is feasible, and lr stays 1/L. The counter grows by exactly 1. The returned value is the objective at the new x. |
| NesterovGradient.Init | optimizer.py:172-176 | The initial state the NAG constructor ensures: x, y and v the initial point, lr = 1/L, counter 0. |
| NesterovGradient.Lookahead | optimizer.py:182 | The lookahead point `δ v + (1-δ) x` is the convex combination of x and v with weight δ. |
| NesterovGradient.Next | optimizer.py:179-191 | One NAG step keeps all dimensions and yields feasible x and v. |
| NesterovGradient.NextFeasible | optimizer.py:182 | In a convex set the lookahead point is feasible whenever x and v are. |
| NesterovGradient.FirstStepXEqualsV | optimizer.py:176-188 | On the first step, with lr = 1/L, y lands on v and the new x and v coincide. |
| NesterovGradient.FixedAtFeasibleStationaryPoint | optimizer.py:181-188 | Suppose x = v is feasible, the gradient there is zero, and the projection leaves feasible points in place. Then y, x and v all stay on that point. |
| NesterovGradient.NAG.constructor | optimizer.py:161-176 | x, y and v are the initial point, lr = 1/L, and the counter is 0. |
| NesterovGradient.NAG.Step | optimizer.py:179-192 | y, x and v are updated in that order as one NAG step. The counter grows by exactly 1, and x and v are feasible. In a convex set y is feasible when the old x and v were. After the first step x = v. The returned value is the objective at the new x. |

## Left out

- numpy and floating point: vectors are exact reals, so rounding and non-finite values are not modelled. A (dim, 1) column is a sequence of length dim.
- The loss and constraint implementations (the l1, l2 and n_supp sets, the losses) are not part of this model. Their operations are abstract total functions known only through `ValidLoss`, `ValidConstraint`, `Convex` and `ProjectionFixesSet`.
- `function_value` is an uninterpreted collaborator. `step`'s return value is only stated to be that function at the new iterate.
- Optimality is not modelled. The oracle is a minimiser of the linear model and the projection a nearest point, but the model assumes only feasibility (and, for the fixed-point lemmas, that feasible points are left in place).
- `ValidConstraint` assumes the oracle and projection return a feasible point of the set's dimension for every argument, not only for arguments of that dimension. The optimizers only ever pass arguments of that dimension.
- Convergence-rate claims from the cited papers: these are real analysis, not behaviour of this code.
- A constraint set that lacks `fw_subprob` or `projection` fails at run time in Python. Here, having the operation is a precondition (`SupportsFwSubprob`, `SupportsProjection`) of the variant's `Step`.
- The base class's `raise NotImplementedError` is modelled as an `Err(NotImplementedError)` result, not an exception.
- Experiment drivers, plotting and logging are not part of this model.
