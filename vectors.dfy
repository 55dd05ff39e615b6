/** Dense real vectors, the exact-arithmetic counterpart of the column vectors of
    shape (dim, 1) that the optimizers combine with elementwise arithmetic.
    The functions promise only their length; what each entry holds is stated
    by the `...At` lemmas, so that callers who reason about whole vectors do
    not pay for elementwise arithmetic. */
module Vectors {

  type Vec = seq<real>

  /** The zero vector of length n (the lazy initial value of auxiliary vectors). */
  function Zeros(n: nat): (r: Vec)
    ensures |r| == n
  {
    if n == 0 then [] else Zeros(n - 1) + [0.0]
  }

  /** Scalar times vector, `c * a`. */
  function Scale(c: real, a: Vec): (r: Vec)
    ensures |r| == |a|
  {
    if a == [] then [] else [c * a[0]] + Scale(c, a[1..])
  }

  /** Elementwise sum, `a + b`. */
  function Add(a: Vec, b: Vec): (r: Vec)
    requires |a| == |b|
    ensures |r| == |a|
  {
    if a == [] then [] else [a[0] + b[0]] + Add(a[1..], b[1..])
  }

  /** Elementwise difference, `a - b`. */
  function Sub(a: Vec, b: Vec): (r: Vec)
    requires |a| == |b|
    ensures |r| == |a|
  {
    if a == [] then [] else [a[0] - b[0]] + Sub(a[1..], b[1..])
  }

  /** The convex-combination expression `(1 - t) * a + t * b` the Frank-Wolfe
      variants use for every update. */
  function Mix(t: real, a: Vec, b: Vec): (r: Vec)
    requires |a| == |b|
    ensures |r| == |a|
  {
    Add(Scale(1.0 - t, a), Scale(t, b))
  }

  lemma {:induction false} ZerosAt(n: nat, i: nat)
    requires i < n
    ensures Zeros(n)[i] == 0.0
  {
    if i < n - 1 { ZerosAt(n - 1, i); }
  }

  lemma {:induction false} ScaleAt(c: real, a: Vec, i: nat)
    requires i < |a|
    ensures Scale(c, a)[i] == c * a[i]
  {
    if i > 0 { ScaleAt(c, a[1..], i - 1); }
  }

  lemma {:induction false} AddAt(a: Vec, b: Vec, i: nat)
    requires |a| == |b| && i < |a|
    ensures Add(a, b)[i] == a[i] + b[i]
  {
    if i > 0 { AddAt(a[1..], b[1..], i - 1); }
  }

  lemma {:induction false} SubAt(a: Vec, b: Vec, i: nat)
    requires |a| == |b| && i < |a|
    ensures Sub(a, b)[i] == a[i] - b[i]
  {
    if i > 0 { SubAt(a[1..], b[1..], i - 1); }
  }

  lemma MixAt(t: real, a: Vec, b: Vec, i: nat)
    requires |a| == |b| && i < |a|
    ensures Mix(t, a, b)[i] == (1.0 - t) * a[i] + t * b[i]
  {
    AddAt(Scale(1.0 - t, a), Scale(t, b), i);
    ScaleAt(1.0 - t, a, i);
    ScaleAt(t, b, i);
  }

  /** With weight 1 the first operand contributes nothing, whatever it holds. */
  lemma MixWeightOne(a: Vec, b: Vec)
    requires |a| == |b|
    ensures Mix(1.0, a, b) == b
  {
    var r := Mix(1.0, a, b);
    forall i | 0 <= i < |a| ensures r[i] == b[i] {
      MixAt(1.0, a, b, i);
      assert r[i] == 0.0 * a[i] + 1.0 * b[i];
    }
  }

  /** Mixing a vector with itself gives it back, whatever the weight. */
  lemma MixSame(t: real, a: Vec)
    ensures Mix(t, a, a) == a
  {
    var r := Mix(t, a, a);
    forall i | 0 <= i < |a| ensures r[i] == a[i] {
      MixAt(t, a, a, i);
      assert r[i] == (1.0 - t) * a[i] + t * a[i];
    }
  }

  /** A step along the zero vector goes nowhere, whatever its length. */
  lemma SubScaledZeros(c: real, a: Vec)
    ensures Sub(a, Scale(c, Zeros(|a|))) == a
  {
    var z := Scale(c, Zeros(|a|));
    var r := Sub(a, z);
    forall i | 0 <= i < |a| ensures r[i] == a[i] {
      SubAt(a, z, i);
      ScaleAt(c, Zeros(|a|), i);
      ZerosAt(|a|, i);
    }
  }

  /** The sum of two vectors does not depend on the order they are written in. */
  lemma AddCommutes(a: Vec, b: Vec)
    requires |a| == |b|
    ensures Add(a, b) == Add(b, a)
  {
    var r, s := Add(a, b), Add(b, a);
    forall i | 0 <= i < |a| ensures r[i] == s[i] {
      AddAt(a, b, i);
      AddAt(b, a, i);
    }
  }

  /** `t * b + (1 - t) * a`, the operand order Nesterov's lookahead is written
      in, is the mixture `(1 - t) * a + t * b`. */
  lemma SwappedMix(t: real, a: Vec, b: Vec)
    requires |a| == |b|
    ensures Add(Scale(t, b), Scale(1.0 - t, a)) == Mix(t, a, b)
  {
    AddCommutes(Scale(t, b), Scale(1.0 - t, a));
  }

  /** A mixture with a nonzero weight determines its second operand: two
      mixtures with the same weight and first operand agree exactly when their
      second operands agree. */
  lemma MixCancel(t: real, a: Vec, b: Vec, c: Vec)
    requires |a| == |b| == |c|
    requires t != 0.0
    ensures Mix(t, a, b) == Mix(t, a, c) <==> b == c
  {
    if Mix(t, a, b) == Mix(t, a, c) {
      forall i | 0 <= i < |a| ensures b[i] == c[i] {
        MixAt(t, a, b, i);
        MixAt(t, a, c, i);
        CancelWeight(t, a[i], b[i], c[i]);
      }
    }
  }

  /** Cancelling a nonzero weight in one coordinate. */
  lemma CancelWeight(t: real, x: real, p: real, q: real)
    requires t != 0.0
    requires (1.0 - t) * x + t * p == (1.0 - t) * x + t * q
    ensures p == q
  {
    assert t * p == t * q;
    assert p == (t * p) / t;
  }
}
