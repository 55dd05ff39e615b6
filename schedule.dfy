/** The parameter-free step-size schedules, read from the iteration counter
    before it is incremented. */
module Schedule {

  /** The Frank-Wolfe weight δ = 2 / (n_iter + 2). */
  function Delta(n: nat): (d: real)
    ensures 0.0 < d <= 1.0
  {
    2.0 / (n as real + 2.0)
  }

  /** The weight is 1 on the first step and on no other. */
  lemma DeltaIsOneExactlyAtStart(n: nat)
    ensures Delta(n) == 1.0 <==> n == 0
  {
    if Delta(n) == 1.0 {
      assert 2.0 == 1.0 * (n as real + 2.0);
    }
  }

  /** The complementary weight is n / (n + 2); it vanishes on the first step. */
  lemma OneMinusDelta(n: nat)
    ensures 1.0 - Delta(n) == n as real / (n as real + 2.0)
  {
  }

  /** The schedule strictly decreases in the counter. */
  lemma DeltaDecreasing(m: nat, n: nat)
    requires m < n
    ensures Delta(n) < Delta(m)
  {
    Halves(m as real + 2.0, n as real + 2.0);
  }

  /** Two over a larger positive number is smaller. */
  lemma Halves(a: real, b: real)
    requires 0.0 < a < b
    ensures 2.0 / b < 2.0 / a
  {
    assert 2.0 / a - 2.0 / b == 2.0 * (b - a) / (a * b);
    assert a * b > 0.0;
  }

  /** The long step α = (k + 2) / (2L) of Nesterov's auxiliary sequence. */
  function Alpha(k: nat, lipschitz: real): (a: real)
    requires lipschitz > 0.0
    ensures a > 0.0
  {
    (k as real + 2.0) / (2.0 * lipschitz)
  }

  /** α is (k + 2) / 2 times the fixed step 1/L: it is never shorter than
      1/L, equals it exactly on the first iteration and grows by 1/(2L) per
      iteration. */
  lemma AlphaInTermsOfStep(k: nat, lipschitz: real)
    requires lipschitz > 0.0
    ensures Alpha(k, lipschitz) == (k as real + 2.0) / 2.0 * (1.0 / lipschitz)
    ensures Alpha(k, lipschitz) >= 1.0 / lipschitz
    ensures Alpha(k, lipschitz) == 1.0 / lipschitz <==> k == 0
    ensures Alpha(k + 1, lipschitz) == Alpha(k, lipschitz) + 1.0 / (2.0 * lipschitz)
  {
    var step := 1.0 / lipschitz;
    assert step > 0.0;
    assert Alpha(k, lipschitz) == (k as real + 2.0) / 2.0 * step;
    assert Alpha(k, lipschitz) - step == k as real / 2.0 * step;
  }
}
