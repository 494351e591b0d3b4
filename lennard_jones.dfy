/**
 * The Lennard-Jones kernels: the pair force scalar with its cutoff, the wall force
 * and the pair potential. Both World variants use the same formulas.
 */
module LennardJones {
  import opened Powers
  import opened Vectors
  import opened Interactions

  /** `M_PI` as the decimal of the double. */
  const Pi: real := 3.141592653589793

  /** The cutoff in squared distance: 2.5 sigma, squared. */
  function CutoffSqr(info: InteractionInfo): real
  {
    6.25 * info.sigmaSqr
  }

  /**
   * The force formula divides by distance_sqr^7 below the cutoff: it is defined at the
   * cutoff and beyond, and below it for a nonzero squared distance.
   */
  predicate ForceDefined(distanceSqr: real, info: InteractionInfo)
  {
    distanceSqr >= CutoffSqr(info) || distanceSqr != 0.0
  }

  /**
   * `getForce`: the magnitude factor f such that f * (p_i - p_j) is the force on atom i,
   * as a function of the squared distance. It vanishes from the cutoff on.
   */
  function Force(distanceSqr: real, info: InteractionInfo): (f: real)
    requires ForceDefined(distanceSqr, info)
    ensures distanceSqr >= CutoffSqr(info) ==> f == 0.0
  {
    if distanceSqr >= CutoffSqr(info) then 0.0
    else
      PowNonzero(distanceSqr, 7);
      info.coeff * (Pow(distanceSqr, 3) - 2.0 * info.sigmaSixthPower) / Pow(distanceSqr, 7)
  }

  /** The force on atom i from atom j at positions pi and pj: `getForce(d2, info) * (pi - pj)`. */
  function PairForce(pi: Vec2, pj: Vec2, info: InteractionInfo): Vec2
    requires ForceDefined(NormSqr(Sub(pi, pj)), info)
  {
    Scale(Force(NormSqr(Sub(pi, pj)), info), Sub(pi, pj))
  }

  /**
   * `getWallForce`: the repulsion of a wall at the given distance;
   * `Sq(SIGMA_SIXTH_POWER)` is `pow(SIGMA_SIXTH_POWER, 2)` (`Powers.SqIsPow`).
   */
  function WallForce(distance: real, info: InteractionInfo): real
    requires distance != 0.0
  {
    PowNonzero(distance, 11);
    63.0 * Pi * info.epsilon * Sq(info.sigmaSixthPower) / 256.0 / Pow(distance, 11)
  }

  /** `getPotential`: 4 epsilon ((sigma/r)^12 - (sigma/r)^6). */
  function Potential(distance: real, info: InteractionInfo): real
    requires distance != 0.0
  {
    4.0 * info.epsilon * (Pow(info.sigma / distance, 12) - Pow(info.sigma / distance, 6))
  }

  /**
   * The potential evaluated from the squared distance d2 = r^2, which needs no square root:
   * 4 epsilon (sigma^12 / d2^6 - sigma^6 / d2^3).
   */
  function PotentialFromSqr(distanceSqr: real, info: InteractionInfo): real
    requires distanceSqr != 0.0
  {
    PowNonzero(distanceSqr, 6);
    PowNonzero(distanceSqr, 3);
    4.0 * info.epsilon *
      (Pow(info.sigma, 12) / Pow(distanceSqr, 6) - Pow(info.sigma, 6) / Pow(distanceSqr, 3))
  }

  /** Evaluating from the squared distance gives `getPotential` at any root of it. */
  lemma PotentialFromSqrAgrees(r: real, info: InteractionInfo)
    requires r != 0.0
    ensures Sq(r) != 0.0
    ensures PotentialFromSqr(Sq(r), info) == Potential(r, info)
  {
    SqFacts(r);
    var d2 := Sq(r);
    SqIsPow(r);
    PowPow(r, 2, 6);
    PowPow(r, 2, 3);
    PowQuotient(info.sigma, r, 12);
    PowQuotient(info.sigma, r, 6);
    LennardJonesForm(info.epsilon, Pow(info.sigma, 12) / Pow(d2, 6), Pow(info.sigma / r, 12),
                     Pow(info.sigma, 6) / Pow(d2, 3), Pow(info.sigma / r, 6));
    PotentialFromSqrForm(d2, info);
  }

  lemma PotentialFromSqrForm(distanceSqr: real, info: InteractionInfo)
    requires distanceSqr != 0.0
    ensures PotentialFromSqr(distanceSqr, info)
         == 4.0 * info.epsilon * (Pow(info.sigma, 12) / Pow(distanceSqr, 6) - Pow(info.sigma, 6) / Pow(distanceSqr, 3))
  {
  }

  /** The potential's shape 4 epsilon (a - b) takes equal terms to equal values. */
  lemma LennardJonesForm(epsilon: real, a: real, a': real, b: real, b': real)
    requires a == a' && b == b'
    ensures 4.0 * epsilon * (a - b) == 4.0 * epsilon * (a' - b')
  {
  }

  /**
   * Below the cutoff, with COEFF < 0 (a positive well depth, see
   * `Interactions.DerivedConstants`), the force is repulsive (positive) exactly when
   * d2^3 < 2 sigma^6, zero exactly at d2^3 = 2 sigma^6, and attractive (negative)
   * exactly when d2^3 > 2 sigma^6.
   */
  lemma ForceSign(distanceSqr: real, info: InteractionInfo)
    requires 0.0 < distanceSqr < CutoffSqr(info)
    requires info.coeff < 0.0
    ensures Force(distanceSqr, info) > 0.0 <==> Pow(distanceSqr, 3) < 2.0 * info.sigmaSixthPower
    ensures Force(distanceSqr, info) == 0.0 <==> Pow(distanceSqr, 3) == 2.0 * info.sigmaSixthPower
    ensures Force(distanceSqr, info) < 0.0 <==> Pow(distanceSqr, 3) > 2.0 * info.sigmaSixthPower
  {
    var n := Pow(distanceSqr, 3) - 2.0 * info.sigmaSixthPower;
    PowPositive(distanceSqr, 7);
    NegativeFactorSign(info.coeff, n);
    QuotientSign(info.coeff * n, Pow(distanceSqr, 7));
  }

  lemma NegativeFactorSign(c: real, n: real)
    requires c < 0.0
    ensures c * n > 0.0 <==> n < 0.0
    ensures c * n == 0.0 <==> n == 0.0
    ensures c * n < 0.0 <==> n > 0.0
  {
    if n < 0.0 {
      ProductPositive(-c, -n);
    } else if n > 0.0 {
      ProductPositive(-c, n);
    }
  }

  lemma QuotientSign(x: real, y: real)
    requires y > 0.0
    ensures x / y > 0.0 <==> x > 0.0
    ensures x / y == 0.0 <==> x == 0.0
    ensures x / y < 0.0 <==> x < 0.0
  {
    var q := x / y;
    assert q * y == x;
    if q > 0.0 {
      ProductPositive(q, y);
    } else if q < 0.0 {
      ProductPositive(-q, y);
    }
  }

  /** A wall never attracts: the wall force is non-negative at a positive distance. */
  lemma WallForceNonNegative(distance: real, info: InteractionInfo)
    requires distance > 0.0 && info.epsilon >= 0.0
    ensures WallForce(distance, info) >= 0.0
  {
    WallStrengthNonNegative(info);
    PowPositive(distance, 11);
    QuotientNonNegative(WallStrength(info), Pow(distance, 11));
  }

  /** The wall force weakens with distance: nearer walls push at least as hard. */
  lemma WallForceDecreasing(near: real, far: real, info: InteractionInfo)
    requires 0.0 < near <= far && info.epsilon >= 0.0
    ensures WallForce(far, info) <= WallForce(near, info)
  {
    WallStrengthNonNegative(info);
    InverseEleventhPowerAntitone(WallStrength(info), near, far);
  }

  /** The distance-independent factor of `getWallForce`. */
  function WallStrength(info: InteractionInfo): real
  {
    63.0 * Pi * info.epsilon * Sq(info.sigmaSixthPower) / 256.0
  }

  lemma WallStrengthNonNegative(info: InteractionInfo)
    requires info.epsilon >= 0.0
    ensures WallStrength(info) >= 0.0
    ensures forall d :: d != 0.0 ==> Pow(d, 11) != 0.0 && WallForce(d, info) == WallStrength(info) / Pow(d, 11)
  {
    SqFacts(info.sigmaSixthPower);
    ProductNonNegative(63.0 * Pi * info.epsilon, Sq(info.sigmaSixthPower));
    forall d | d != 0.0
      ensures Pow(d, 11) != 0.0 && WallForce(d, info) == WallStrength(info) / Pow(d, 11)
    {
      PowNonzero(d, 11);
    }
  }

  lemma InverseEleventhPowerAntitone(x: real, near: real, far: real)
    requires x >= 0.0 && 0.0 < near <= far
    ensures 0.0 < Pow(near, 11) <= Pow(far, 11) && x / Pow(far, 11) <= x / Pow(near, 11)
  {
    PowMonotone(near, far, 11);
    QuotientAntitone(x, Pow(near, 11), Pow(far, 11));
  }

  lemma QuotientNonNegative(x: real, y: real)
    requires x >= 0.0 && y > 0.0
    ensures x / y >= 0.0
  {
    QuotientSign(x, y);
  }

  lemma QuotientAntitone(x: real, y: real, z: real)
    requires x >= 0.0 && 0.0 < y <= z
    ensures x / z <= x / y
  {
    var a, b := x / y, x / z;
    assert a * y == x && b * z == x;
    QuotientSign(x, y);
    QuotientSign(x, z);
    if b > a {
      MultiplyMonotone(y, a, z, b);
    }
  }

  /** The potential crosses zero at the distance sigma. */
  lemma PotentialAtSigma(info: InteractionInfo)
    requires info.sigma != 0.0
    ensures Potential(info.sigma, info) == 0.0
  {
    assert info.sigma / info.sigma == 1.0;
    PowOfOne(12);
    PowOfOne(6);
  }

  /**
   * A default-constructed (all zero) parameter set exerts nothing: the pair force is
   * zero at every squared distance, and the wall force and potential at every nonzero
   * distance.
   */
  lemma ZeroInteraction(distanceSqr: real, distance: real)
    requires distanceSqr >= 0.0 && distance != 0.0
    ensures Force(distanceSqr, DefaultInteraction) == 0.0
    ensures WallForce(distance, DefaultInteraction) == 0.0
    ensures Potential(distance, DefaultInteraction) == 0.0
  {
    NoWellDepth(distance, DefaultInteraction);
  }

  /** A zero well depth switches off the wall force and the potential. */
  lemma NoWellDepth(distance: real, info: InteractionInfo)
    requires distance != 0.0 && info.epsilon == 0.0
    ensures WallForce(distance, info) == 0.0
    ensures Potential(distance, info) == 0.0
  {
    PowNonzero(distance, 11);
  }

  /** Newton's third law: the force on j from i is the opposite of the force on i from j. */
  lemma PairForceAntisymmetric(pi: Vec2, pj: Vec2, info: InteractionInfo)
    requires ForceDefined(NormSqr(Sub(pi, pj)), info)
    ensures ForceDefined(NormSqr(Sub(pj, pi)), info)
    ensures PairForce(pj, pi, info) == Neg(PairForce(pi, pj, info))
  {
    NormSqrOfReversed(pi, pj);
  }
}
