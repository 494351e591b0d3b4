/**
 * The earlier world: the same force pass, Runge-Kutta step and pressure counter, but
 * with its own symmetric interaction table, a constructor that lays out two staggered
 * grids of atoms, walls and gravity that always apply, a fixed 500-step pressure window
 * and an iterator loop that erases the atoms outside the box.
 */
module Legacy {
  import opened Vectors
  import opened Atoms
  import opened Interactions
  import opened ForcePass
  import opened Integration
  import opened Boundary
  import opened Observables
  import Simulation

  /** `ITERATIONS_FOR_IMPULSE_MEASUREMENT`. */
  const ImpulseWindow: int := 500

  /** An ordered pair of species. */
  type TypePair = (AtomType, AtomType)

  /** Every ordered pair of species. */
  function AllPairs(): set<TypePair>
  {
    set a: AtomType, b: AtomType | a in {Wall, Water, Body} && b in {Wall, Water, Body} :: (a, b)
  }

  lemma EveryPair(a: AtomType, b: AtomType)
    ensures (a, b) in AllPairs()
  {
    assert a in {Wall, Water, Body} && b in {Wall, Water, Body};
  }

  /**
   * `m_interactions` as initialised: each species with itself, and both orders of every
   * mixed pair with the same parameters; only (Wall, Wall) has no entry.
   */
  function EarlyTable(): (t: ForcePass.Table)
    ensures t.Keys == AllPairs() - {(Wall, Wall)}
  {
    map[
      (Body, Body) := MakeInteraction(1.0, 100.0),
      (Water, Water) := MakeInteraction(2.725, 4.9115),
      (Wall, Water) := MakeInteraction(10.0, 5.0),
      (Wall, Body) := MakeInteraction(10.0, 5.0),
      (Body, Water) := MakeInteraction(2.0, 0.1),
      (Water, Wall) := MakeInteraction(10.0, 5.0),
      (Body, Wall) := MakeInteraction(10.0, 5.0),
      (Water, Body) := MakeInteraction(2.0, 0.1)]
  }

  /** `m_interactions[{a, b}]`: the stored entry, or a default-constructed one. */
  function Lookup(t: ForcePass.Table, a: AtomType, b: AtomType): InteractionInfo
  {
    if (a, b) in t then t[(a, b)] else DefaultInteraction
  }

  /**
   * The table as the force pass sees it through `operator[]`: every pair has an entry,
   * the default one where none was stored.
   */
  function Completed(t: ForcePass.Table): (c: ForcePass.Table)
    ensures c.Keys == AllPairs()
  {
    map k | k in AllPairs() :: Lookup(t, k.0, k.1)
  }

  /** Completing the table changes no lookup and leaves no pair missing. */
  lemma CompletedAgrees(t: ForcePass.Table, a: AtomType, b: AtomType)
    ensures (a, b) in Completed(t)
    ensures Completed(t)[(a, b)] == Lookup(t, a, b)
    ensures (a, b) in t ==> Completed(t)[(a, b)] == t[(a, b)]
    ensures (a, b) !in t ==> Completed(t)[(a, b)] == DefaultInteraction
  {
    EveryPair(a, b);
  }

  /** The earlier table is symmetric: a lookup does not depend on the order of the pair. */
  lemma EarlyTableSymmetric(a: AtomType, b: AtomType)
    ensures Lookup(EarlyTable(), a, b) == Lookup(EarlyTable(), b, a)
    ensures Completed(EarlyTable())[(a, b)] == Completed(EarlyTable())[(b, a)]
  {
    CompletedAgrees(EarlyTable(), a, b);
    CompletedAgrees(EarlyTable(), b, a);
  }

  /** The stored parameters, and the default entry the pass meets for (Wall, Wall). */
  lemma EarlyTableEntries()
    ensures Completed(EarlyTable())[(Body, Body)] == MakeInteraction(1.0, 100.0)
    ensures Completed(EarlyTable())[(Water, Water)] == MakeInteraction(2.725, 4.9115)
    ensures Completed(EarlyTable())[(Water, Body)] == MakeInteraction(2.0, 0.1)
    ensures Completed(EarlyTable())[(Water, Wall)] == MakeInteraction(10.0, 5.0)
    ensures Completed(EarlyTable())[(Body, Wall)] == MakeInteraction(10.0, 5.0)
    ensures Completed(EarlyTable())[(Wall, Wall)] == DefaultInteraction
  {
    CompletedAgrees(EarlyTable(), Body, Body);
    CompletedAgrees(EarlyTable(), Water, Water);
    CompletedAgrees(EarlyTable(), Water, Body);
    CompletedAgrees(EarlyTable(), Water, Wall);
    CompletedAgrees(EarlyTable(), Body, Wall);
    CompletedAgrees(EarlyTable(), Wall, Wall);
  }

  /** The site of water atom (x, y): rows 2.75 apart, every odd row shifted by half a step. */
  function WaterSite(x: int, y: int): Vec2
  {
    Vec2(25.0 + 2.75 * x as real + 1.375 * (y % 2) as real, 25.0 + 2.75 * y as real)
  }

  /** The site of body atom (x, y): rows 1.15 apart, every odd row shifted by half a step. */
  function BodySite(x: int, y: int): Vec2
  {
    Vec2(100.0 + 1.15 * x as real + 0.575 * (y % 2) as real, 250.0 + 1.15 * y as real)
  }

  /** `emplace_back()` of a default atom, then its position and species set. */
  function Placed(site: Vec2, atomType: AtomType): Atom
  {
    EarlyDefaultAtom().(position := site, atomType := atomType)
  }

  /** The 100 x 25 water grid, column after column. */
  function WaterGrid(): (g: seq<Atom>)
    ensures |g| == 2500
  {
    seq(2500, k requires 0 <= k < 2500 => Placed(WaterSite(k / 25, k % 25), Water))
  }

  /** The 20 x 20 body grid, column after column. */
  function BodyGrid(): (g: seq<Atom>)
    ensures |g| == 400
  {
    seq(400, k requires 0 <= k < 400 => Placed(BodySite(k / 20, k % 20), Body))
  }

  /** Index w * x + y of a column-major grid of column height w is column x, row y. */
  lemma GridIndex(x: int, y: int, w: int)
    requires w > 0 && 0 <= y < w
    ensures (w * x + y) / w == x && (w * x + y) % w == y
  {
    var q, r := (w * x + y) / w, (w * x + y) % w;
    assert w * q + r == w * x + y;
    var d := q - x;
    assert w * d == y - r;
    assert -w < w * d < w;
    assert d == 0;
  }

  /**
   * The 2900 atoms the constructor lays out: 2500 water atoms first, then 400 body
   * atoms, all at rest and of mass 1, on their grid sites.
   */
  lemma GridLayout()
    ensures |WaterGrid() + BodyGrid()| == 2900
    ensures forall k :: 0 <= k < 2500 ==> (WaterGrid() + BodyGrid())[k].atomType == Water
    ensures forall k :: 2500 <= k < 2900 ==> (WaterGrid() + BodyGrid())[k].atomType == Body
    ensures forall k :: 0 <= k < 2900 ==>
      (WaterGrid() + BodyGrid())[k].speed == Zero && (WaterGrid() + BodyGrid())[k].mass == 1.0
    ensures forall x, y :: 0 <= x < 100 && 0 <= y < 25 ==>
      (WaterGrid() + BodyGrid())[25 * x + y].position == WaterSite(x, y)
    ensures forall x, y :: 0 <= x < 20 && 0 <= y < 20 ==>
      (WaterGrid() + BodyGrid())[2500 + 20 * x + y].position == BodySite(x, y)
  {
    var g := WaterGrid() + BodyGrid();
    forall x, y | 0 <= x < 100 && 0 <= y < 25
      ensures g[25 * x + y].position == WaterSite(x, y)
    {
      GridIndex(x, y, 25);
    }
    forall x, y | 0 <= x < 20 && 0 <= y < 20
      ensures g[2500 + 20 * x + y].position == BodySite(x, y)
    {
      GridIndex(x, y, 20);
    }
  }

  /** Every grid atom lies strictly inside a box wider than 298.625 and higher than 271.85. */
  lemma GridInside(width: real, height: real)
    requires width > 298.625 && height > 271.85
    ensures AllInside(WaterGrid() + BodyGrid(), width, height)
  {
    var g := WaterGrid() + BodyGrid();
    forall k | 0 <= k < |g|
      ensures !Outside(g[k], width, height)
    {
      if k < 2500 {
        assert 0 <= k / 25 < 100 && 0 <= k % 25 < 25;
      } else {
        assert 0 <= (k - 2500) / 20 < 20 && 0 <= (k - 2500) % 20 < 20;
      }
    }
    AllInsideEverywhere(g, width, height);
  }

  /**
   * The two placement loops of the older world's constructor: 100 columns of 25 water
   * atoms, then 20 columns of 20 body atoms, each appended in turn.
   */
  method BuildGrids() returns (built: seq<Atom>)
    ensures built == WaterGrid() + BodyGrid()
  {
    built := [];
    var x := 0;
    while x < 100
      invariant 0 <= x <= 100
      invariant built == WaterGrid()[..25 * x]
    {
      var y := 0;
      while y < 25
        invariant 0 <= y <= 25
        invariant built == WaterGrid()[..25 * x + y]
      {
        GridIndex(x, y, 25);
        assert WaterGrid()[..25 * x + y + 1] == WaterGrid()[..25 * x + y] + [WaterGrid()[25 * x + y]];
        built := built + [Placed(WaterSite(x, y), Water)];
        y := y + 1;
      }
      x := x + 1;
    }
    assert built == WaterGrid();
    x := 0;
    while x < 20
      invariant 0 <= x <= 20
      invariant built == WaterGrid() + BodyGrid()[..20 * x]
    {
      var y := 0;
      while y < 20
        invariant 0 <= y <= 20
        invariant built == WaterGrid() + BodyGrid()[..20 * x + y]
      {
        GridIndex(x, y, 20);
        assert BodyGrid()[..20 * x + y + 1] == BodyGrid()[..20 * x + y] + [BodyGrid()[20 * x + y]];
        built := built + [Placed(BodySite(x, y), Body)];
        y := y + 1;
      }
      x := x + 1;
    }
    assert BodyGrid()[..400] == BodyGrid();
  }

  class World {
    var atoms: seq<Atom>
    var boxSize: Vec2
    var pressure: Simulation.Reading
    var totalImpulse: real
    var iteration: int
    var wallY: real
    var wallSpeed: real
    var wallMass: real
    var collidingWithMovingWall: bool
    /** `m_dt`: set by the constructor and never changed afterwards. */
    const dt: real
    /** `m_interactions`; lookups go through `operator[]`, see `Completed`. */
    const interactions: ForcePass.Table

    /**
     * `World(dt, box_size)`: the two grids, the piston at the top of the box with mass
     * 10 and at rest, and a zero pressure, impulse and counter.
     */
    constructor(dt: real, boxSize: Vec2)
      ensures atoms == WaterGrid() + BodyGrid()
      ensures this.dt == dt && this.boxSize == boxSize
      ensures wallY == boxSize.y && wallMass == 10.0 && wallSpeed == 0.0
      ensures pressure == Simulation.Finite(0.0) && totalImpulse == 0.0 && iteration == 0
      ensures !collidingWithMovingWall && interactions == EarlyTable()
    {
      var built := BuildGrids();
      this.dt := dt;
      this.boxSize := boxSize;
      interactions := EarlyTable();
      atoms := built;
      pressure, totalImpulse, iteration := Simulation.Finite(0.0), 0.0, 0;
      wallY, wallSpeed, wallMass := boxSize.y, 0.0, 10.0;
      collidingWithMovingWall := false;
    }

    /** `getBoxHeight`: the box height, or the piston height when that is lower and the piston takes part. */
    function BoxHeight(): real
      reads this`boxSize, this`collidingWithMovingWall, this`wallY
    {
      Simulation.Height(boxSize.y, collidingWithMovingWall, wallY)
    }

    function Perimeter(): real
      reads this`boxSize, this`collidingWithMovingWall, this`wallY
    {
      2.0 * (boxSize.x + BoxHeight())
    }

    function Area(): real
      reads this`boxSize, this`collidingWithMovingWall, this`wallY
    {
      boxSize.x * BoxHeight()
    }

    /** The time between two pressure measurements, `m_dt * 500`. */
    function Duration(): real
    {
      dt * ImpulseWindow as real
    }

    /** What the force pass reads: the completed table, walls and gravity always on. */
    function PassParams(): Params
      reads this`boxSize, this`collidingWithMovingWall, this`wallY, this`wallMass
    {
      Params(Completed(interactions), boxSize.x, BoxHeight(), true, true, wallMass)
    }

    /** `getTemperature`: the mean kinetic energy; the world must hold an atom. */
    method GetTemperature() returns (t: real)
      requires |atoms| > 0
      ensures t == Temperature(atoms)
    {
      var total := TotalKineticEnergy(atoms);
      t := total / |atoms| as real;
    }

    /** `getDensity`: the total mass over the area; the area must not be zero. */
    method GetDensity() returns (d: real)
      requires Area() != 0.0
      ensures d == Density(atoms, Area())
    {
      var total := TotalMass(atoms);
      d := total / Area();
    }

    /** `setBoxSize`: only the box changes. */
    method SetBoxSize(size: Vec2)
      modifies this
      ensures boxSize == size
      ensures atoms == old(atoms) && pressure == old(pressure) && totalImpulse == old(totalImpulse)
      ensures iteration == old(iteration) && wallY == old(wallY) && wallSpeed == old(wallSpeed)
      ensures wallMass == old(wallMass) && collidingWithMovingWall == old(collidingWithMovingWall)
    {
      boxSize := size;
    }

    /** `addAtom`: one atom appended at the end, the others untouched. */
    method AddAtom(a: Atom)
      modifies this
      ensures atoms == old(atoms) + [a]
      ensures boxSize == old(boxSize) && pressure == old(pressure) && totalImpulse == old(totalImpulse)
      ensures iteration == old(iteration) && wallY == old(wallY) && wallSpeed == old(wallSpeed)
      ensures wallMass == old(wallMass) && collidingWithMovingWall == old(collidingWithMovingWall)
    {
      atoms := atoms + [a];
    }

    method SetMovingWallMass(mass: real)
      modifies this
      ensures wallMass == mass
      ensures atoms == old(atoms) && boxSize == old(boxSize) && pressure == old(pressure)
      ensures totalImpulse == old(totalImpulse) && iteration == old(iteration)
      ensures wallY == old(wallY) && wallSpeed == old(wallSpeed)
      ensures collidingWithMovingWall == old(collidingWithMovingWall)
    {
      wallMass := mass;
    }

    method CollideWithMovingWall(collide: bool)
      modifies this
      ensures collidingWithMovingWall == collide
      ensures atoms == old(atoms) && boxSize == old(boxSize) && pressure == old(pressure)
      ensures totalImpulse == old(totalImpulse) && iteration == old(iteration)
      ensures wallY == old(wallY) && wallSpeed == old(wallSpeed) && wallMass == old(wallMass)
    {
      collidingWithMovingWall := collide;
    }

    /**
     * The first part of `integrate`: the Runge-Kutta step with walls and gravity, the
     * impulse gathered and, on every 500th counter value, turned into the pressure over
     * the old perimeter, and the piston advanced by the update as written, whose height
     * and speed take each other's increment.
     */
    method Advance(threads: nat)
      requires threads >= 1
      requires StepDefined(PassParams(), atoms, dt)
      modifies this`atoms, this`pressure, this`totalImpulse, this`wallY, this`wallSpeed
      ensures Simulation.Gauge(pressure, totalImpulse)
           == Simulation.Measure(old(Simulation.Sampled(iteration, ImpulseWindow)), old(totalImpulse),
                                 old(Step(PassParams(), atoms, dt, wallSpeed).impulse),
                                 old(pressure), Duration(), old(Perimeter()))
      ensures (wallY, wallSpeed)
           == PistonAdvanceAsWritten(old(wallY), old(wallSpeed), old(Step(PassParams(), atoms, dt, wallSpeed).piston))
      ensures atoms == old(Step(PassParams(), atoms, dt, wallSpeed).atoms)
    {
      var perimeter := Perimeter();
      var stepped, impulse, piston, seen := RungeKuttaStep(PassParams(), atoms, dt, wallSpeed, threads);
      var p, i := Simulation.SamplePressure(iteration % ImpulseWindow == 0, totalImpulse, impulse,
                                           pressure, Duration(), perimeter);
      var (y, v) := PistonAdvanceAsWritten(wallY, wallSpeed, piston);
      atoms, pressure, totalImpulse, wallY, wallSpeed := stepped, p, i, y, v;
    }

    /** The last part of `integrate`: the iterator loop erasing the atoms outside the box. */
    method EraseEscaped()
      modifies this`atoms
      ensures atoms == KeepInside(old(atoms), boxSize.x, BoxHeight())
      ensures AllInside(atoms, boxSize.x, BoxHeight())
    {
      atoms := EraseOutside(atoms, boxSize.x, BoxHeight());
    }

    /**
     * `integrate`: the step, the pressure counter and the piston, then the atoms outside
     * the new box erased, so none is left outside.
     */
    method Integrate(threads: nat)
      requires threads >= 1
      requires StepDefined(PassParams(), atoms, dt)
      modifies this`atoms, this`pressure, this`totalImpulse, this`wallY, this`wallSpeed
      ensures Simulation.Gauge(pressure, totalImpulse)
           == Simulation.Measure(old(Simulation.Sampled(iteration, ImpulseWindow)), old(totalImpulse),
                                 old(Step(PassParams(), atoms, dt, wallSpeed).impulse),
                                 old(pressure), Duration(), old(Perimeter()))
      ensures (wallY, wallSpeed)
           == PistonAdvanceAsWritten(old(wallY), old(wallSpeed), old(Step(PassParams(), atoms, dt, wallSpeed).piston))
      ensures atoms == KeepInside(old(Step(PassParams(), atoms, dt, wallSpeed).atoms), boxSize.x, BoxHeight())
      ensures AllInside(atoms, boxSize.x, BoxHeight())
    {
      Advance(threads);
      EraseEscaped();
    }

    /** `makeSimulationStep`: integrate, then count the step. */
    method MakeSimulationStep(threads: nat)
      requires threads >= 1
      requires StepDefined(PassParams(), atoms, dt)
      modifies this`atoms, this`pressure, this`totalImpulse, this`wallY, this`wallSpeed, this`iteration
      ensures Simulation.Gauge(pressure, totalImpulse)
           == Simulation.Measure(old(Simulation.Sampled(iteration, ImpulseWindow)), old(totalImpulse),
                                 old(Step(PassParams(), atoms, dt, wallSpeed).impulse),
                                 old(pressure), Duration(), old(Perimeter()))
      ensures (wallY, wallSpeed)
           == PistonAdvanceAsWritten(old(wallY), old(wallSpeed), old(Step(PassParams(), atoms, dt, wallSpeed).piston))
      ensures atoms == KeepInside(old(Step(PassParams(), atoms, dt, wallSpeed).atoms), boxSize.x, BoxHeight())
      ensures iteration == old(iteration) + 1
    {
      Integrate(threads);
      iteration := iteration + 1;
    }
  }
}
