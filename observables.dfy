/**
 * The measured quantities of a world, computed by loops over its atoms: the total
 * kinetic energy, the temperature, the total mass and density, and the total energy
 * (kinetic plus the Lennard-Jones potential of every pair).
 */
module Observables {
  import opened Powers
  import opened Vectors
  import opened Atoms
  import opened Interactions
  import opened LennardJones

  type Table = map<(AtomType, AtomType), InteractionInfo>

  /** The kinetic energies of the atoms, summed in order. */
  function KineticEnergySum(atoms: seq<Atom>): real
    decreases |atoms|
  {
    if atoms == [] then 0.0 else KineticEnergySum(atoms[..|atoms| - 1]) + KineticEnergy(atoms[|atoms| - 1])
  }

  /** The masses of the atoms, summed in order. */
  function MassSum(atoms: seq<Atom>): real
    decreases |atoms|
  {
    if atoms == [] then 0.0 else MassSum(atoms[..|atoms| - 1]) + atoms[|atoms| - 1].mass
  }

  /** Every mass is non-negative. */
  predicate MassesNonNegative(atoms: seq<Atom>)
  {
    forall i :: 0 <= i < |atoms| ==> atoms[i].mass >= 0.0
  }

  /** The first loop of `getTemperature` and `getTotalEnergy`. */
  method TotalKineticEnergy(atoms: seq<Atom>) returns (total: real)
    ensures total == KineticEnergySum(atoms)
  {
    total := 0.0;
    for i := 0 to |atoms|
      invariant total == KineticEnergySum(atoms[..i])
    {
      assert atoms[..i + 1][..i] == atoms[..i];
      total := total + KineticEnergy(atoms[i]);
    }
    assert atoms[..|atoms|] == atoms;
  }

  /** The loop of `getDensity`. */
  method TotalMass(atoms: seq<Atom>) returns (total: real)
    ensures total == MassSum(atoms)
  {
    total := 0.0;
    for i := 0 to |atoms|
      invariant total == MassSum(atoms[..i])
    {
      assert atoms[..i + 1][..i] == atoms[..i];
      total := total + atoms[i].mass;
    }
    assert atoms[..|atoms|] == atoms;
  }

  /** With non-negative masses the total kinetic energy is non-negative. */
  lemma {:induction false} KineticEnergySumNonNegative(atoms: seq<Atom>)
    requires MassesNonNegative(atoms)
    ensures KineticEnergySum(atoms) >= 0.0
    decreases |atoms|
  {
    if atoms != [] {
      KineticEnergySumNonNegative(atoms[..|atoms| - 1]);
    }
  }

  /** Appending an atom adds its kinetic energy and its mass to the totals. */
  lemma KineticEnergySumAppend(atoms: seq<Atom>, a: Atom)
    ensures KineticEnergySum(atoms + [a]) == KineticEnergySum(atoms) + KineticEnergy(a)
    ensures MassSum(atoms + [a]) == MassSum(atoms) + a.mass
  {
    assert (atoms + [a])[..|atoms|] == atoms;
  }

  /** When every atom carries the same kinetic energy e, the n atoms carry n e. */
  lemma {:induction false} KineticEnergySumUniform(atoms: seq<Atom>, e: real)
    requires forall i :: 0 <= i < |atoms| ==> KineticEnergy(atoms[i]) == e
    ensures KineticEnergySum(atoms) == |atoms| as real * e
    decreases |atoms|
  {
    if atoms != [] {
      KineticEnergySumUniform(atoms[..|atoms| - 1], e);
    }
  }

  /** The totals only depend on each atom's speed and mass, not on where it is or its species. */
  lemma {:induction false} TotalsIgnorePlace(atoms: seq<Atom>, others: seq<Atom>)
    requires |atoms| == |others|
    requires forall i :: 0 <= i < |atoms| ==> atoms[i].speed == others[i].speed && atoms[i].mass == others[i].mass
    ensures KineticEnergySum(atoms) == KineticEnergySum(others)
    ensures MassSum(atoms) == MassSum(others)
    decreases |atoms|
  {
    if atoms != [] {
      var n := |atoms|;
      TotalsIgnorePlace(atoms[..n - 1], others[..n - 1]);
      KineticEnergyIgnoresPlace(atoms[n - 1], others[n - 1].position, others[n - 1].atomType);
      assert atoms[n - 1].(position := others[n - 1].position, atomType := others[n - 1].atomType) == others[n - 1];
    }
  }

  /** Positive masses over a non-empty vector give a positive total mass. */
  lemma {:induction false} MassSumPositive(atoms: seq<Atom>)
    requires |atoms| > 0 && forall i :: 0 <= i < |atoms| ==> atoms[i].mass > 0.0
    ensures MassSum(atoms) > 0.0
    decreases |atoms|
  {
    if |atoms| > 1 {
      MassSumPositive(atoms[..|atoms| - 1]);
    }
  }

  /**
   * `getTemperature`: the mean kinetic energy per atom. The division by the atom count
   * needs at least one atom.
   */
  function Temperature(atoms: seq<Atom>): real
    requires |atoms| > 0
  {
    KineticEnergySum(atoms) / |atoms| as real
  }

  /** The temperature is non-negative when the masses are. */
  lemma TemperatureNonNegative(atoms: seq<Atom>)
    requires |atoms| > 0 && MassesNonNegative(atoms)
    ensures Temperature(atoms) >= 0.0
  {
    KineticEnergySumNonNegative(atoms);
  }

  /** When every atom has kinetic energy e, so is the temperature e. */
  lemma TemperatureUniform(atoms: seq<Atom>, e: real)
    requires |atoms| > 0
    requires forall i :: 0 <= i < |atoms| ==> KineticEnergy(atoms[i]) == e
    ensures Temperature(atoms) == e
  {
    KineticEnergySumUniform(atoms, e);
  }

  /** `getDensity`: total mass over the area; the area must not be zero. */
  function Density(atoms: seq<Atom>, area: real): real
    requires area != 0.0
  {
    MassSum(atoms) / area
  }

  /** Positive masses in a box of positive area have a positive density. */
  lemma DensityPositive(atoms: seq<Atom>, area: real)
    requires area > 0.0 && |atoms| > 0
    requires forall i :: 0 <= i < |atoms| ==> atoms[i].mass > 0.0
    ensures Density(atoms, area) > 0.0
  {
    MassSumPositive(atoms);
  }

  /** Every pair's table entry exists and no two atoms share a position. */
  predicate EnergyDefined(table: Table, atoms: seq<Atom>)
  {
    forall i, j :: 0 <= i < j < |atoms| ==>
      && (atoms[i].atomType, atoms[j].atomType) in table
      && NormSqr(Sub(atoms[i].position, atoms[j].position)) != 0.0
  }

  /**
   * The potential of one pair at the root of its squared distance
   * (`LennardJones.PotentialFromSqrAgrees`).
   */
  function PairPotential(table: Table, a: Atom, b: Atom): real
    requires (a.atomType, b.atomType) in table
    requires NormSqr(Sub(a.position, b.position)) != 0.0
  {
    PotentialFromSqr(NormSqr(Sub(a.position, b.position)), table[(a.atomType, b.atomType)])
  }

  /** The inner loop: the pairs (i, second) for i < second < j. */
  function RowPotential(table: Table, atoms: seq<Atom>, i: nat, j: nat): real
    requires i < j <= |atoms| && EnergyDefined(table, atoms)
    decreases j
  {
    if j == i + 1 then 0.0 else RowPotential(table, atoms, i, j - 1) + PairPotential(table, atoms[i], atoms[j - 1])
  }

  /** The outer loop: every pair whose first atom is before k. */
  function PotentialUpTo(table: Table, atoms: seq<Atom>, k: nat): real
    requires k <= |atoms| && EnergyDefined(table, atoms)
    decreases k
  {
    if k == 0 then 0.0 else PotentialUpTo(table, atoms, k - 1) + RowPotential(table, atoms, k - 1, |atoms|)
  }

  /** The total potential energy, over every unordered pair once. */
  function PotentialEnergy(table: Table, atoms: seq<Atom>): real
    requires EnergyDefined(table, atoms)
  {
    PotentialUpTo(table, atoms, |atoms|)
  }

  function TotalEnergy(table: Table, atoms: seq<Atom>): real
    requires EnergyDefined(table, atoms)
  {
    KineticEnergySum(atoms) + PotentialEnergy(table, atoms)
  }

  /**
   * `getTotalEnergy`: the kinetic loop, then the pair loop over first < second. The
   * potential of each pair is taken from its squared distance.
   */
  method ComputeTotalEnergy(table: Table, atoms: seq<Atom>) returns (energy: real)
    requires EnergyDefined(table, atoms)
    ensures energy == TotalEnergy(table, atoms)
  {
    var kinetic := TotalKineticEnergy(atoms);
    var potential := 0.0;
    for first := 0 to |atoms|
      invariant potential == PotentialUpTo(table, atoms, first)
    {
      var row := 0.0;
      for second := first + 1 to |atoms|
        invariant row == RowPotential(table, atoms, first, second)
      {
        var distanceSqr := NormSqr(Sub(atoms[first].position, atoms[second].position));
        var info := table[(atoms[first].atomType, atoms[second].atomType)];
        assert PairPotential(table, atoms[first], atoms[second]) == PotentialFromSqr(distanceSqr, info);
        row := row + PotentialFromSqr(distanceSqr, info);
      }
      potential := potential + row;
    }
    energy := kinetic + potential;
  }

  /** The atoms all moved by the same displacement d. */
  function Translated(atoms: seq<Atom>, d: Vec2): (r: seq<Atom>)
    ensures |r| == |atoms|
  {
    seq(|atoms|, i requires 0 <= i < |atoms| => atoms[i].(position := Add(atoms[i].position, d)))
  }

  lemma TranslatedDifference(a: Vec2, b: Vec2, d: Vec2)
    ensures Sub(Add(a, d), Add(b, d)) == Sub(a, b)
  {
  }

  /**
   * Two configurations of the same length whose atoms have the same types and whose
   * pairs have the same separation vectors.
   */
  predicate SameGeometry(s: seq<Atom>, t: seq<Atom>)
  {
    && |s| == |t|
    && (forall i :: 0 <= i < |s| ==> s[i].atomType == t[i].atomType)
    && (forall i, j :: 0 <= i < |s| && 0 <= j < |s| ==>
          Sub(s[i].position, s[j].position) == Sub(t[i].position, t[j].position))
  }

  /** Moving every atom by the same displacement keeps every pair's types and separation. */
  lemma TranslatedGeometry(atoms: seq<Atom>, d: Vec2)
    ensures SameGeometry(Translated(atoms, d), atoms)
  {
    var t := Translated(atoms, d);
    forall i, j | 0 <= i < |atoms| && 0 <= j < |atoms|
      ensures Sub(t[i].position, t[j].position) == Sub(atoms[i].position, atoms[j].position)
    {
      TranslatedDifference(atoms[i].position, atoms[j].position, d);
    }
  }

  /** The energy is defined on a configuration exactly when it is on one of the same geometry. */
  lemma SameGeometryDefined(table: Table, s: seq<Atom>, t: seq<Atom>)
    requires SameGeometry(s, t) && EnergyDefined(table, t)
    ensures EnergyDefined(table, s)
  {
    forall i, j | 0 <= i < j < |s|
      ensures (s[i].atomType, s[j].atomType) in table && NormSqr(Sub(s[i].position, s[j].position)) != 0.0
    {
      assert Sub(s[i].position, s[j].position) == Sub(t[i].position, t[j].position);
    }
  }

  lemma {:induction false} RowPotentialSameGeometry(table: Table, s: seq<Atom>, t: seq<Atom>, i: nat, j: nat)
    requires i < j <= |s| && SameGeometry(s, t) && EnergyDefined(table, s) && EnergyDefined(table, t)
    ensures RowPotential(table, s, i, j) == RowPotential(table, t, i, j)
    decreases j
  {
    if j > i + 1 {
      RowPotentialSameGeometry(table, s, t, i, j - 1);
      assert Sub(s[i].position, s[j - 1].position) == Sub(t[i].position, t[j - 1].position);
      assert PairPotential(table, s[i], s[j - 1]) == PairPotential(table, t[i], t[j - 1]);
    }
  }

  /** Equal sums over the first k - 1 rows and equal row k - 1 give equal sums over k rows. */
  lemma PotentialUpToStep(table: Table, s: seq<Atom>, t: seq<Atom>, k: nat)
    requires 0 < k <= |s| == |t| && EnergyDefined(table, s) && EnergyDefined(table, t)
    requires PotentialUpTo(table, s, k - 1) == PotentialUpTo(table, t, k - 1)
    requires RowPotential(table, s, k - 1, |s|) == RowPotential(table, t, k - 1, |t|)
    ensures PotentialUpTo(table, s, k) == PotentialUpTo(table, t, k)
  {
  }

  /** The potential sums depend only on the atoms' types and their pairs' separations. */
  lemma {:induction false} PotentialUpToSameGeometry(table: Table, s: seq<Atom>, t: seq<Atom>, k: nat)
    requires k <= |s| && SameGeometry(s, t) && EnergyDefined(table, s) && EnergyDefined(table, t)
    ensures PotentialUpTo(table, s, k) == PotentialUpTo(table, t, k)
    decreases k
  {
    if k > 0 {
      PotentialUpToSameGeometry(table, s, t, k - 1);
      RowPotentialSameGeometry(table, s, t, k - 1, |s|);
      PotentialUpToStep(table, s, t, k);
    }
  }

  /** Moving the whole system by one displacement changes neither energy. */
  lemma TotalEnergyTranslated(table: Table, atoms: seq<Atom>, d: Vec2)
    requires EnergyDefined(table, atoms)
    ensures EnergyDefined(table, Translated(atoms, d))
    ensures TotalEnergy(table, Translated(atoms, d)) == TotalEnergy(table, atoms)
  {
    TranslatedGeometry(atoms, d);
    SameGeometryDefined(table, Translated(atoms, d), atoms);
    PotentialUpToSameGeometry(table, Translated(atoms, d), atoms, |atoms|);
    TotalsIgnorePlace(Translated(atoms, d), atoms);
  }

  /** A lone atom has no pair: its total energy is its kinetic energy. */
  lemma LoneAtomEnergy(table: Table, a: Atom)
    ensures EnergyDefined(table, [a])
    ensures TotalEnergy(table, [a]) == KineticEnergy(a)
  {
    assert RowPotential(table, [a], 0, 1) == 0.0;
    assert PotentialUpTo(table, [a], 1) == 0.0;
    assert [a][..0] == [];
    assert KineticEnergySum([a]) == KineticEnergy(a);
  }

  /** Two atoms at distance sigma of their pair's parameters have kinetic energy only. */
  lemma PairAtSigmaEnergy(table: Table, a: Atom, b: Atom)
    requires (a.atomType, b.atomType) in table
    requires var info := table[(a.atomType, b.atomType)];
      info.sigma > 0.0 && NormSqr(Sub(a.position, b.position)) == Sq(info.sigma)
    ensures EnergyDefined(table, [a, b])
    ensures TotalEnergy(table, [a, b]) == KineticEnergy(a) + KineticEnergy(b)
  {
    var info := table[(a.atomType, b.atomType)];
    SqFacts(info.sigma);
    PotentialFromSqrAgrees(info.sigma, info);
    PotentialAtSigma(info);
    var s := [a, b];
    assert RowPotential(table, s, 0, 2) == PairPotential(table, a, b);
    assert RowPotential(table, s, 1, 2) == 0.0;
    assert PotentialUpTo(table, s, 1) == PairPotential(table, a, b);
    assert PotentialUpTo(table, s, 2) == PairPotential(table, a, b);
    assert s[..1] == [a] && [a][..0] == [];
    assert KineticEnergySum(s[..1]) == KineticEnergy(a);
    assert KineticEnergySum(s) == KineticEnergy(a) + KineticEnergy(b);
  }
}
