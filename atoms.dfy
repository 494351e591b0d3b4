/**
 * The particle record. Both `Atom` classes of the program (the current one and the
 * earlier one) have the same four fields and differ only in the default species and
 * in the earlier one's field-initialising constructor.
 */
module Atoms {
  import opened Vectors
  import opened Powers

  /** The species tag. `Wall` is only a key for wall interactions. */
  datatype AtomType = Wall | Water | Body

  datatype Atom = Atom(speed: Vec2, position: Vec2, mass: real, atomType: AtomType)

  /** `Atom()` of the current program: at rest at the origin, mass 1, species Body. */
  function DefaultAtom(): (a: Atom)
    ensures a.speed == Zero && a.position == Zero
    ensures a.mass == 1.0 && a.atomType == Body
  {
    Atom(Zero, Zero, 1.0, Body)
  }

  /** `Atom()` of the earlier program: the same, but of species Water. */
  function EarlyDefaultAtom(): (a: Atom)
    ensures a.speed == Zero && a.position == Zero
    ensures a.mass == 1.0 && a.atomType == Water
  {
    Atom(Zero, Zero, 1.0, Water)
  }

  /** `Atom(position, mass, type)` of the earlier program; the speed keeps its default. */
  function NewAtom(position: Vec2, mass: real, atomType: AtomType): (a: Atom)
    ensures a.position == position && a.mass == mass && a.atomType == atomType
    ensures a.speed == EarlyDefaultAtom().speed
  {
    Atom(Zero, position, mass, atomType)
  }

  /** The squared speed `pow(speed.x, 2) + pow(speed.y, 2)` under the square root. */
  function SpeedSqr(a: Atom): (q: real)
    ensures q >= 0.0
    ensures q == 0.0 <==> a.speed == Zero
  {
    NormSqrFacts(a.speed);
    NormSqr(a.speed)
  }

  /**
   * s is a value `getAbsoluteSpeed` can return: the non-negative square root of the
   * squared speed (`std::sqrt` characterised by its defining property).
   */
  ghost predicate IsAbsoluteSpeed(a: Atom, s: real)
  {
    s >= 0.0 && Sq(s) == SpeedSqr(a)
  }

  /** The absolute speed is zero exactly when the speed vector is zero. */
  lemma AbsoluteSpeedZeroIff(a: Atom, s: real)
    requires IsAbsoluteSpeed(a, s)
    ensures s == 0.0 <==> a.speed == Zero
  {
    SqFacts(s);
  }

  /** The characterisation determines the absolute speed: two roots are equal. */
  lemma AbsoluteSpeedUnique(a: Atom, s: real, t: real)
    requires IsAbsoluteSpeed(a, s) && IsAbsoluteSpeed(a, t)
    ensures s == t
  {
    if s < t {
      SqMonotone(t, s);
    } else if t < s {
      SqMonotone(s, t);
    }
  }

  /** `getKineticEnergy` as written: `mass * pow(getAbsoluteSpeed(), 2) / 2`. */
  function KineticEnergyFromSpeed(a: Atom, absoluteSpeed: real): real
  {
    a.mass * Pow(absoluteSpeed, 2) / 2.0
  }

  /**
   * The kinetic energy with the square root squared away: mass * |v|^2 / 2.
   * It is non-negative for a non-negative mass.
   */
  function KineticEnergy(a: Atom): (e: real)
    ensures a.mass >= 0.0 ==> e >= 0.0
  {
    ProductNonNegative(a.mass, SpeedSqr(a));
    a.mass * SpeedSqr(a) / 2.0
  }

  /**
   * An atom whose absolute speed is zero (by `AbsoluteSpeedZeroIff`, an atom at rest)
   * has no kinetic energy, whatever its mass.
   */
  lemma KineticEnergyAtRest(a: Atom, s: real)
    requires IsAbsoluteSpeed(a, s) && s == 0.0
    ensures KineticEnergy(a) == 0.0
  {
    ScaledZero(a.mass, SpeedSqr(a));
  }

  lemma ScaledZero(m: real, q: real)
    requires q == 0.0
    ensures m * q / 2.0 == 0.0
  {
  }

  /** Squaring the square root in `getKineticEnergy` gives back the squared speed. */
  lemma KineticEnergyAsWritten(a: Atom, s: real)
    requires IsAbsoluteSpeed(a, s)
    ensures KineticEnergyFromSpeed(a, s) == KineticEnergy(a)
    ensures KineticEnergy(a) == a.mass * (Pow(a.speed.x, 2) + Pow(a.speed.y, 2)) / 2.0
  {
    SqIsPow(s);
    NormSqrIsPow(a.speed);
  }

  /** The kinetic energy does not depend on the position or the species. */
  lemma KineticEnergyIgnoresPlace(a: Atom, p: Vec2, t: AtomType)
    ensures KineticEnergy(a.(position := p, atomType := t)) == KineticEnergy(a)
  {
  }
}
