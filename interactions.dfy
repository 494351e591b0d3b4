/** Lennard-Jones parameters of one species pair with their precomputed constants. */
module Interactions {
  import opened Powers

  /** All five members are `const`: a value is never changed after construction. */
  datatype InteractionInfo = InteractionInfo(
    sigma: real,
    epsilon: real,
    sigmaSixthPower: real,
    sigmaSqr: real,
    coeff: real)

  /** The derived constants agree with sigma and epsilon as the constructor computes them. */
  ghost predicate Consistent(info: InteractionInfo)
  {
    && info.sigmaSqr == Sq(info.sigma)
    && info.sigmaSixthPower == Pow(info.sigma, 6)
    && info.coeff == -24.0 * info.epsilon * Pow(info.sigma, 6)
  }

  /** `InteractionInfo(sigma, epsilon)`; `Sq(sigma)` is `sigma * sigma`. */
  function MakeInteraction(sigma: real, epsilon: real): (info: InteractionInfo)
    ensures info.sigma == sigma && info.epsilon == epsilon
    ensures Consistent(info)
  {
    InteractionInfo(sigma, epsilon, Pow(sigma, 6), Sq(sigma), -24.0 * epsilon * Pow(sigma, 6))
  }

  /** `InteractionInfo()`: every member keeps its initialiser 0. */
  const DefaultInteraction: InteractionInfo := InteractionInfo(0.0, 0.0, 0.0, 0.0, 0.0)

  /**
   * What the derived constants mean: sigma^6 is the cube of sigma^2, both are
   * non-negative, and COEFF is -24 * EPSILON * SIGMA_SIXTH_POWER, negative for a
   * positive well depth and a nonzero sigma.
   */
  lemma {:induction false} DerivedConstants(info: InteractionInfo)
    requires Consistent(info)
    ensures info.sigmaSqr >= 0.0 && info.sigmaSixthPower >= 0.0
    ensures info.sigmaSixthPower == info.sigmaSqr * info.sigmaSqr * info.sigmaSqr
    ensures info.coeff == -24.0 * info.epsilon * info.sigmaSixthPower
    ensures info.epsilon > 0.0 && info.sigma != 0.0 ==> info.coeff < 0.0
  {
    var s := info.sigma;
    PowEvenNonNegative(s, 3);
    PowPow(s, 2, 3);
    SqIsPow(s);
    SqFacts(s);
    assert Pow(Sq(s), 3) == Sq(s) * Sq(s) * Sq(s);
    if info.epsilon > 0.0 && s != 0.0 {
      PowNonzero(s, 6);
      assert Pow(s, 6) > 0.0;
      assert info.epsilon * Pow(s, 6) > 0.0;
    }
  }

  /** The default value is the one built from sigma = epsilon = 0. */
  lemma DefaultIsZeroInteraction()
    ensures DefaultInteraction == MakeInteraction(0.0, 0.0)
    ensures Consistent(DefaultInteraction)
  {
    PowOfZero(6);
  }
}
