/**
 * The current world: the atoms, the configuration object, the piston (moving wall) and
 * the pressure counter, advanced one Runge-Kutta step at a time.
 */
module Simulation {
  import opened Vectors
  import opened Atoms
  import opened Configuration
  import opened ForcePass
  import opened Integration
  import opened Boundary
  import opened Observables

  function Min(a: real, b: real): (m: real)
    ensures m <= a && m <= b && (m == a || m == b)
  {
    if a <= b then a else b
  }

  /** Whether a step with the given pre-increment counter recomputes the pressure. */
  predicate Sampled(iteration: int, period: int)
    requires period != 0
  {
    iteration % period == 0
  }

  /**
   * The pressure schedule: the counter value 0 and every multiple of the period
   * recompute the pressure, the period - 1 values between two multiples do not.
   */
  lemma SamplingSchedule(period: int, m: int, k: int)
    requires period > 0 && 0 < k < period
    ensures Sampled(0, period) && Sampled(m * period, period)
    ensures !Sampled(m * period + k, period)
  {
    ModUnique(m * period, period, m, 0);
    ModUnique(m * period + k, period, m, k);
  }

  /** x % period is the remainder of any division of x with a remainder in [0, period). */
  lemma ModUnique(x: int, period: int, q: int, r: int)
    requires period > 0 && 0 <= r < period && x == period * q + r
    ensures x % period == r
  {
    var q2, r2 := x / period, x % period;
    assert x == period * q2 + r2;
    var d := q2 - q;
    assert period * d == r - r2;
    assert -period < period * d < period;
    assert d == 0;
  }

  /**
   * A stored pressure: a finite value, or the infinity or NaN that a double holds after
   * a division by a zero duration or wall length.
   */
  datatype Reading = Finite(value: real) | NonFinite

  /** The pressure gauge: the last pressure and the impulse gathered since it was measured. */
  datatype Gauge = Gauge(pressure: Reading, totalImpulse: real)

  /**
   * One step of the gauge: the step's impulse is added to the stored one; on a sampled
   * step the pressure becomes that sum per unit time (over the window's duration) per
   * unit of wall length, not a finite number when either divisor is zero, and the stored
   * impulse restarts from zero; otherwise the pressure stays and the impulse keeps
   * gathering.
   */
  function Measure(sampled: bool, stored: real, added: real, pressure: Reading, duration: real, perimeter: real): Gauge
  {
    var gathered := stored + added;
    if !sampled then Gauge(pressure, gathered)
    else if duration == 0.0 || perimeter == 0.0 then Gauge(NonFinite, 0.0)
    else Gauge(Finite(gathered / duration / perimeter), 0.0)
  }

  /** The impulse update and counter test of `integrate`, on the values it reads. */
  method SamplePressure(sampled: bool, stored: real, added: real, pressure: Reading, duration: real, perimeter: real)
    returns (newPressure: Reading, newImpulse: real)
    ensures Gauge(newPressure, newImpulse) == Measure(sampled, stored, added, pressure, duration, perimeter)
  {
    newPressure, newImpulse := pressure, stored + added;
    if sampled {
      if duration != 0.0 && perimeter != 0.0 {
        newPressure := Finite(newImpulse / duration / perimeter);
      } else {
        // the double division by zero gives an infinity or NaN
        newPressure := NonFinite;
      }
      newImpulse := 0.0;
    }
  }

  /**
   * A pressure measured over a non-zero duration and wall length, times both, gives back
   * the impulse gathered, and none of it is kept; a zero divisor leaves no finite
   * pressure and also drops the impulse; an unsampled step loses no impulse and keeps
   * the pressure.
   */
  lemma MeasureBalance(sampled: bool, stored: real, added: real, pressure: Reading, duration: real, perimeter: real)
    ensures var g := Measure(sampled, stored, added, pressure, duration, perimeter);
      if !sampled then g == Gauge(pressure, stored + added)
      else if duration == 0.0 || perimeter == 0.0 then g == Gauge(NonFinite, 0.0)
      else g.pressure.Finite? && g.pressure.value * duration * perimeter == stored + added && g.totalImpulse == 0.0
  {
    if sampled && duration != 0.0 && perimeter != 0.0 {
      var q := (stored + added) / duration;
      assert q * duration == stored + added;
      assert (q / perimeter) * perimeter == q;
      assert (q / perimeter) * duration * perimeter == (q / perimeter) * perimeter * duration;
    }
  }

  /** A positive impulse over a positive duration and wall length gives a positive pressure. */
  lemma MeasurePositive(stored: real, added: real, pressure: Reading, dt: real, period: int, perimeter: real)
    requires dt > 0.0 && period > 0 && perimeter > 0.0 && stored + added > 0.0
    ensures var p := Measure(true, stored, added, pressure, dt * period as real, perimeter).pressure;
      p.Finite? && p.value > 0.0
  {
    var t := dt * period as real;
    assert t > 0.0;
    var q := (stored + added) / t;
    assert q > 0.0;
    assert q / perimeter > 0.0;
  }

  /**
   * `getBoxHeight`: the box height, lowered to the piston when the piston takes part;
   * it is one of the two and never above either that applies.
   */
  function Height(boxHeight: real, moving: bool, wallY: real): (h: real)
    ensures h <= boxHeight
    ensures moving ==> h <= wallY && (h == wallY || h == boxHeight)
    ensures !moving ==> h == boxHeight
  {
    if moving then Min(boxHeight, wallY) else boxHeight
  }

  /** The same two sides of a box in either order give the same perimeter bound. */
  lemma PerimeterBoundsArea(width: real, height: real)
    ensures (2.0 * (width + height)) * (2.0 * (width + height)) >= 16.0 * (width * height)
  {
    assert (2.0 * (width + height)) * (2.0 * (width + height)) - 16.0 * (width * height)
        == 4.0 * ((width - height) * (width - height));
  }

  class World {
    const data: WorldData
    var atoms: seq<Atom>
    var pressure: Reading
    var totalImpulse: real
    var iteration: int
    var wallY: real
    var wallSpeed: real
    var wallMass: real

    /**
     * The world built by its generator: the atoms the generator appends, a fresh
     * configuration, zero pressure, impulse, counter, piston height and speed, and a
     * piston mass of 10.
     */
    constructor(generated: seq<Atom>)
      ensures atoms == generated
      ensures fresh(data) && data.dt == 0.01 && data.isGravityEnabled
      ensures data.interactions == InitialInteractions()
      ensures data.boxSize == Zero && !data.isCollidingWithWalls && !data.isCollidingWithMovingWall
      ensures data.iterationsPerImpulseMeasurements == 500
      ensures pressure == Finite(0.0) && totalImpulse == 0.0 && iteration == 0
      ensures wallY == 0.0 && wallSpeed == 0.0 && wallMass == 10.0
    {
      data := new WorldData();
      atoms := generated;
      pressure, totalImpulse, iteration := Finite(0.0), 0.0, 0;
      wallY, wallSpeed, wallMass := 0.0, 0.0, 10.0;
    }

    function BoxHeight(): real
      reads this`wallY, data
    {
      Height(data.boxSize.y, data.isCollidingWithMovingWall, wallY)
    }

    function Perimeter(): real
      reads this`wallY, data
    {
      2.0 * (data.boxSize.x + BoxHeight())
    }

    function Area(): real
      reads this`wallY, data
    {
      data.boxSize.x * BoxHeight()
    }

    /** A box of positive sides has a positive area and perimeter, and 16 area <= perimeter^2. */
    lemma GeometryBounds()
      requires data.boxSize.x > 0.0 && data.boxSize.y > 0.0
      requires data.isCollidingWithMovingWall ==> wallY > 0.0
      ensures Area() > 0.0 && Perimeter() > 0.0
      ensures Perimeter() * Perimeter() >= 16.0 * Area()
    {
      PerimeterBoundsArea(data.boxSize.x, BoxHeight());
    }

    /** `getTemperature`: the mean kinetic energy; the world must hold an atom. */
    method GetTemperature() returns (t: real)
      requires |atoms| > 0
      ensures t == Temperature(atoms)
    {
      var total := TotalKineticEnergy(atoms);
      t := total / |atoms| as real;
    }

    /** `getDensity`: the total mass over the area; the area must not be zero. */
    method GetDensity() returns (d: real)
      requires Area() != 0.0
      ensures d == Density(atoms, Area())
    {
      var total := TotalMass(atoms);
      d := total / Area();
    }

    /** `getTotalEnergy`, over the configured interactions. */
    method GetTotalEnergy() returns (e: real)
      requires EnergyDefined(data.interactions, atoms)
      ensures e == TotalEnergy(data.interactions, atoms)
    {
      e := ComputeTotalEnergy(data.interactions, atoms);
    }

    method SetMovingWallMass(mass: real)
      modifies this
      ensures wallMass == mass
      ensures atoms == old(atoms) && pressure == old(pressure) && totalImpulse == old(totalImpulse)
      ensures iteration == old(iteration) && wallY == old(wallY) && wallSpeed == old(wallSpeed)
    {
      wallMass := mass;
    }

    /** What the force pass reads from this world. */
    function PassParams(): Params
      reads this`wallY, this`wallMass, data
    {
      Params(data.interactions, data.boxSize.x, BoxHeight(),
             data.isCollidingWithWalls, data.isGravityEnabled, wallMass)
    }

    /** The time between two pressure measurements, `dt * iterationsPerImpulseMeasurements`. */
    function Duration(): real
      reads data
    {
      data.dt * data.iterationsPerImpulseMeasurements as real
    }

    /**
     * `integrate`: the Runge-Kutta step, the impulse gathered and, on a sampled step,
     * turned into the pressure over the old perimeter; the piston advanced by the update
     * as written, whose height and speed take each other's increment; and, when walls
     * apply, the atoms outside the new box removed, so that none is left outside.
     */
    method Integrate(threads: nat)
      requires threads >= 1 && data.iterationsPerImpulseMeasurements != 0
      requires StepDefined(PassParams(), atoms, data.dt)
      modifies this
      ensures Gauge(pressure, totalImpulse)
           == Measure(old(Sampled(iteration, data.iterationsPerImpulseMeasurements)), old(totalImpulse),
                      old(Step(PassParams(), atoms, data.dt, wallSpeed).impulse),
                      old(pressure), old(Duration()), old(Perimeter()))
      ensures (wallY, wallSpeed)
           == PistonAdvanceAsWritten(old(wallY), old(wallSpeed), old(Step(PassParams(), atoms, data.dt, wallSpeed).piston))
      ensures var moved := old(Step(PassParams(), atoms, data.dt, wallSpeed).atoms);
        atoms == if data.isCollidingWithWalls then KeepInside(moved, data.boxSize.x, BoxHeight()) else moved
      ensures data.isCollidingWithWalls ==> AllInside(atoms, data.boxSize.x, BoxHeight())
      ensures iteration == old(iteration) && wallMass == old(wallMass)
    {
      var dt, period := data.dt, data.iterationsPerImpulseMeasurements;
      var perimeter := Perimeter();
      var stepped, impulse, piston, seen := RungeKuttaStep(PassParams(), atoms, dt, wallSpeed, threads);
      pressure, totalImpulse := SamplePressure(iteration % period == 0, totalImpulse, impulse, pressure, Duration(), perimeter);
      var (y, v) := PistonAdvanceAsWritten(wallY, wallSpeed, piston);
      wallY, wallSpeed := y, v;
      atoms := stepped;
      if data.isCollidingWithWalls {
        var height := BoxHeight();
        atoms := EraseOutside(stepped, data.boxSize.x, height);
      }
    }

    /** `makeSimulationStep`: integrate, then count the step. */
    method MakeSimulationStep(threads: nat)
      requires threads >= 1 && data.iterationsPerImpulseMeasurements != 0
      requires StepDefined(PassParams(), atoms, data.dt)
      modifies this
      ensures Gauge(pressure, totalImpulse)
           == Measure(old(Sampled(iteration, data.iterationsPerImpulseMeasurements)), old(totalImpulse),
                      old(Step(PassParams(), atoms, data.dt, wallSpeed).impulse),
                      old(pressure), old(Duration()), old(Perimeter()))
      ensures (wallY, wallSpeed)
           == PistonAdvanceAsWritten(old(wallY), old(wallSpeed), old(Step(PassParams(), atoms, data.dt, wallSpeed).piston))
      ensures var moved := old(Step(PassParams(), atoms, data.dt, wallSpeed).atoms);
        atoms == if data.isCollidingWithWalls then KeepInside(moved, data.boxSize.x, BoxHeight()) else moved
      ensures iteration == old(iteration) + 1 && wallMass == old(wallMass)
    {
      Integrate(threads);
      iteration := iteration + 1;
    }
  }
}
