/**
 * One Runge-Kutta step of the whole world, shared by both worlds' `integrate`: four
 * force passes over the configurations old, old + m1/2, old + m2/2 and old + m3, the
 * rates k_s = F_s dt / mass and moves m_s of each stage, the weighted final update of
 * positions and speeds, the weighted wall impulse and the piston's two increments.
 */
module Integration {
  import opened Vectors
  import opened Atoms
  import opened ForcePass

  /** Every atom has a non-zero mass: the rate of each stage divides by it. */
  predicate MassesNonzero(atoms: seq<Atom>)
  {
    forall i :: 0 <= i < |atoms| ==> atoms[i].mass != 0.0
  }

  /** The force pass on a freshly allocated (zeroed) buffer with zeroed accumulators. */
  function StageForces(p: Params, atoms: seq<Atom>): (r: Acc)
    requires Defined(p, atoms)
    ensures |r.forces| == |atoms|
  {
    IntervalUpTo(p, atoms, Acc(Zeros(|atoms|), 0.0, 0.0), 0, |atoms|)
  }

  /** `k[i] *= dt / mass`: forces turned into speed increments over dt. */
  function Rates(forces: seq<Vec2>, atoms: seq<Atom>, dt: real): (k: seq<Vec2>)
    requires |forces| == |atoms| && MassesNonzero(atoms)
    ensures |k| == |atoms|
  {
    seq(|atoms|, i requires 0 <= i < |atoms| => Scale(dt / atoms[i].mass, forces[i]))
  }

  /** How a stage's move uses the previous stage's rates: not, by half, or fully. */
  datatype Lead = First | Half | Full

  /** The speed a stage moves with: v, v + k/2 or v + k. */
  function LeadSpeed(v: Vec2, k: Vec2, lead: Lead): Vec2
  {
    match lead
    case First => v
    case Half => Add(v, Div(k, 2.0))
    case Full => Add(v, k)
  }

  /** `m[i] = (speed + ...) * dt`: the position increment of each atom in a stage. */
  function Moves(atoms: seq<Atom>, dt: real, prev: seq<Vec2>, lead: Lead): (m: seq<Vec2>)
    requires |prev| == |atoms|
    ensures |m| == |atoms|
  {
    seq(|atoms|, i requires 0 <= i < |atoms| => Scale(dt, LeadSpeed(atoms[i].speed, prev[i], lead)))
  }

  /** Each vector halved: `m[i] / 2.`. */
  function Halves(m: seq<Vec2>): (r: seq<Vec2>)
    ensures |r| == |m|
  {
    seq(|m|, i requires 0 <= i < |m| => Div(m[i], 2.0))
  }

  /** The atoms with every position moved by d[i]; nothing else changes. */
  function Moved(atoms: seq<Atom>, d: seq<Vec2>): (r: seq<Atom>)
    requires |d| == |atoms|
    ensures |r| == |atoms|
    ensures forall i :: 0 <= i < |atoms| ==>
      r[i].speed == atoms[i].speed && r[i].mass == atoms[i].mass && r[i].atomType == atoms[i].atomType
  {
    seq(|atoms|, i requires 0 <= i < |atoms| => atoms[i].(position := Add(atoms[i].position, d[i])))
  }

  /** What one stage produces: rates, moves, the scaled impulse and the raw piston force. */
  datatype Stage = Stage(k: seq<Vec2>, m: seq<Vec2>, impulse: real, pistonForce: real)

  /** A stage evaluated at the configuration `atoms` (speeds and masses are the old ones). */
  function StageAt(p: Params, atoms: seq<Atom>, dt: real, prev: seq<Vec2>, lead: Lead): (s: Stage)
    requires Defined(p, atoms) && MassesNonzero(atoms) && |prev| == |atoms|
    ensures |s.k| == |s.m| == |atoms|
  {
    var f := StageForces(p, atoms);
    Stage(Rates(f.forces, atoms, dt), Moves(atoms, dt, prev, lead), f.impulse * dt, f.pistonForce)
  }

  /** The four configurations and stages of a step. */
  datatype Trace = Trace(a2: seq<Atom>, a3: seq<Atom>, a4: seq<Atom>,
                         s1: Stage, s2: Stage, s3: Stage, s4: Stage)

  /** Every force pass of the step is defined, every mass and the piston mass are non-zero. */
  predicate StepDefined(p: Params, atoms: seq<Atom>, dt: real)
  {
    && MassesNonzero(atoms) && p.pistonMass != 0.0 && Defined(p, atoms)
    && var s1 := StageAt(p, atoms, dt, Zeros(|atoms|), First);
       var a2 := Moved(atoms, Halves(s1.m));
       && Defined(p, a2)
       && var s2 := StageAt(p, a2, dt, s1.k, Half);
          var a3 := Moved(atoms, Halves(s2.m));
          && Defined(p, a3)
          && var s3 := StageAt(p, a3, dt, s2.k, Half);
             Defined(p, Moved(atoms, s3.m))
  }

  function StepTrace(p: Params, atoms: seq<Atom>, dt: real): (t: Trace)
    requires StepDefined(p, atoms, dt)
    ensures |t.a2| == |t.a3| == |t.a4| == |atoms|
    ensures |t.s1.k| == |t.s2.k| == |t.s3.k| == |t.s4.k| == |atoms|
    ensures |t.s1.m| == |t.s2.m| == |t.s3.m| == |t.s4.m| == |atoms|
  {
    var s1 := StageAt(p, atoms, dt, Zeros(|atoms|), First);
    var a2 := Moved(atoms, Halves(s1.m));
    var s2 := StageAt(p, a2, dt, s1.k, Half);
    var a3 := Moved(atoms, Halves(s2.m));
    var s3 := StageAt(p, a3, dt, s2.k, Half);
    var a4 := Moved(atoms, s3.m);
    var s4 := StageAt(p, a4, dt, s3.k, Full);
    Trace(a2, a3, a4, s1, s2, s3, s4)
  }

  /** The configurations the four force passes see, in order. */
  function Configurations(p: Params, atoms: seq<Atom>, dt: real): seq<seq<Atom>>
    requires StepDefined(p, atoms, dt)
  {
    var t := StepTrace(p, atoms, dt);
    [atoms, t.a2, t.a3, t.a4]
  }

  /** `1. / 6. * (a + 2. * b + 2. * c + d)` on vectors. */
  function Weighted(a: Vec2, b: Vec2, c: Vec2, d: Vec2): Vec2
  {
    Scale(1.0 / 6.0, Add(Add(Add(a, Scale(2.0, b)), Scale(2.0, c)), d))
  }

  /** `1. / 6. * (a + 2. * b + 2. * c + d)` on doubles. */
  function WeightedScalar(a: real, b: real, c: real, d: real): real
  {
    1.0 / 6.0 * (a + 2.0 * b + 2.0 * c + d)
  }

  /** The final loop: each atom moved by its weighted moves and sped up by its weighted rates. */
  function Final(atoms: seq<Atom>, t: Trace): (r: seq<Atom>)
    requires |t.s1.k| == |t.s2.k| == |t.s3.k| == |t.s4.k| == |atoms|
    requires |t.s1.m| == |t.s2.m| == |t.s3.m| == |t.s4.m| == |atoms|
    ensures |r| == |atoms|
    ensures forall i :: 0 <= i < |atoms| ==> r[i].mass == atoms[i].mass && r[i].atomType == atoms[i].atomType
  {
    seq(|atoms|, i requires 0 <= i < |atoms| =>
      atoms[i].(position := Add(atoms[i].position, Weighted(t.s1.m[i], t.s2.m[i], t.s3.m[i], t.s4.m[i])),
                speed := Add(atoms[i].speed, Weighted(t.s1.k[i], t.s2.k[i], t.s3.k[i], t.s4.k[i]))))
  }

  /**
   * The piston's increments: `velocityChange` is the weighted sum of the mw1 terms
   * (force times dt over the piston mass) and `displacement` that of the mw2 terms
   * (speed times dt, the speed led by the previous mw1 term).
   */
  datatype Piston = Piston(velocityChange: real, displacement: real)

  function PistonIncrements(v: real, dt: real, mass: real, f1: real, f2: real, f3: real, f4: real): Piston
    requires mass != 0.0
  {
    var mw11 := f1 * (dt / mass);
    var mw12 := f2 * (dt / mass);
    var mw13 := f3 * (dt / mass);
    var mw14 := f4 * (dt / mass);
    var mw21 := v * dt;
    var mw22 := (v + mw11 / 2.0) * dt;
    var mw23 := (v + mw12 / 2.0) * dt;
    var mw24 := (v + mw13) * dt;
    Piston(WeightedScalar(mw11, mw12, mw13, mw14), WeightedScalar(mw21, mw22, mw23, mw24))
  }

  /** What a step returns: the new atoms, the step's wall impulse and the piston increments. */
  datatype StepResult = StepResult(atoms: seq<Atom>, impulse: real, piston: Piston)

  /** The Runge-Kutta step of the world, as a function of the old atoms and piston speed. */
  function Step(p: Params, atoms: seq<Atom>, dt: real, wallSpeed: real): (r: StepResult)
    requires StepDefined(p, atoms, dt)
    ensures |r.atoms| == |atoms|
  {
    var t := StepTrace(p, atoms, dt);
    StepResult(
      Final(atoms, t),
      WeightedScalar(t.s1.impulse, t.s2.impulse, t.s3.impulse, t.s4.impulse),
      PistonIncrements(wallSpeed, dt, p.pistonMass,
                       t.s1.pistonForce, t.s2.pistonForce, t.s3.pistonForce, t.s4.pistonForce))
  }

  /**
   * The body of `integrate` up to the wall impulse: it shifts the atoms' positions in
   * place between the passes, undoing each shift before the next, so the four passes
   * see old, old + m1/2, old + m2/2 and old + m3, and the final loop leaves every atom
   * at old + (m1 + 2 m2 + 2 m3 + m4)/6 with speed old + (k1 + 2 k2 + 2 k3 + k4)/6.
   */
  method RungeKuttaStep(p: Params, atoms0: seq<Atom>, dt: real, wallSpeed: real, threads: nat)
    returns (atoms: seq<Atom>, impulse: real, piston: Piston, ghost seen: seq<seq<Atom>>)
    requires threads >= 1 && StepDefined(p, atoms0, dt)
    ensures seen == Configurations(p, atoms0, dt)
    ensures StepResult(atoms, impulse, piston) == Step(p, atoms0, dt, wallSpeed)
  {
    var n := |atoms0|;
    ghost var t := StepTrace(p, atoms0, dt);
    atoms := atoms0;
    seen := [atoms];

    var k1, m1, impulse1, mw11 := RunStage(p, atoms, dt, Zeros(n), First, threads);
    assert Stage(k1, m1, impulse1, mw11) == t.s1;

    atoms := Shift(atoms, Halves(m1));
    seen := seen + [atoms];
    var k2, m2, impulse2, mw12 := RunStage(p, atoms, dt, k1, Half, threads);
    assert Stage(k2, m2, impulse2, mw12) == t.s2;

    atoms := Reshift(atoms, atoms0, Halves(m1), Halves(m2));
    seen := seen + [atoms];
    var k3, m3, impulse3, mw13 := RunStage(p, atoms, dt, k2, Half, threads);
    assert Stage(k3, m3, impulse3, mw13) == t.s3;

    atoms := Reshift(atoms, atoms0, Halves(m2), m3);
    seen := seen + [atoms];
    var k4, m4, impulse4, mw14 := RunStage(p, atoms, dt, k3, Full, threads);
    assert Stage(k4, m4, impulse4, mw14) == t.s4;

    atoms := Finish(atoms, atoms0, t, m1, m2, m3, m4, k1, k2, k3, k4);
    impulse := WeightedScalar(impulse1, impulse2, impulse3, impulse4);
    piston := PistonIncrements(wallSpeed, dt, p.pistonMass, mw11, mw12, mw13, mw14);
  }

  /**
   * One stage: the force pass into a zeroed buffer with zeroed accumulators, the loop
   * that turns forces into rates and fills in the moves, and the impulse times dt.
   */
  method RunStage(p: Params, atoms: seq<Atom>, dt: real, prev: seq<Vec2>, lead: Lead, threads: nat)
    returns (k: seq<Vec2>, m: seq<Vec2>, impulse: real, pistonForce: real)
    requires threads >= 1 && |prev| == |atoms|
    requires Defined(p, atoms) && MassesNonzero(atoms)
    ensures Stage(k, m, impulse, pistonForce) == StageAt(p, atoms, dt, prev, lead)
  {
    var n := |atoms|;
    var ks := new Vec2[n](_ => Zero);
    var ms := new Vec2[n](_ => Zero);
    assert ks[..] == Zeros(n);
    ghost var visited;
    impulse, pistonForce, visited := Forces(p, atoms, ks, 0.0, 0.0, threads);
    RatesAndMoves(atoms, dt, ks, ms, prev, lead);
    impulse := impulse * dt;
    k, m := ks[..], ms[..];
  }

  /** The loop after a force pass: turns forces into rates and fills in the moves. */
  method RatesAndMoves(atoms: seq<Atom>, dt: real, k: array<Vec2>, m: array<Vec2>, prev: seq<Vec2>, lead: Lead)
    requires k.Length == m.Length == |atoms| == |prev| && k != m
    requires MassesNonzero(atoms)
    modifies k, m
    ensures k[..] == Rates(old(k[..]), atoms, dt)
    ensures m[..] == Moves(atoms, dt, prev, lead)
  {
    ghost var forces := k[..];
    for i := 0 to |atoms|
      invariant forall j :: 0 <= j < i ==> k[j] == Scale(dt / atoms[j].mass, forces[j])
      invariant forall j :: i <= j < |atoms| ==> k[j] == forces[j]
      invariant forall j :: 0 <= j < i ==> m[j] == Scale(dt, LeadSpeed(atoms[j].speed, prev[j], lead))
    {
      k[i] := Scale(dt / atoms[i].mass, k[i]);
      m[i] := Scale(dt, LeadSpeed(atoms[i].speed, prev[i], lead));
    }
  }

  /** The first shift: every position moved by d[i]. */
  method Shift(atoms: seq<Atom>, d: seq<Vec2>) returns (r: seq<Atom>)
    requires |d| == |atoms|
    ensures r == Moved(atoms, d)
  {
    r := atoms;
    for i := 0 to |atoms|
      invariant |r| == |atoms|
      invariant forall j :: 0 <= j < i ==> r[j] == Moved(atoms, d)[j]
      invariant forall j :: i <= j < |atoms| ==> r[j] == atoms[j]
    {
      r := r[i := r[i].(position := Add(r[i].position, d[i]))];
    }
  }

  /** A later shift: the previous shift taken off and the next one put on, atom by atom. */
  method Reshift(atoms: seq<Atom>, ghost base: seq<Atom>, back: seq<Vec2>, forth: seq<Vec2>)
    returns (r: seq<Atom>)
    requires |back| == |forth| == |base|
    requires atoms == Moved(base, back)
    ensures r == Moved(base, forth)
  {
    r := atoms;
    for i := 0 to |atoms|
      invariant |r| == |atoms|
      invariant forall j :: 0 <= j < i ==> r[j] == Moved(base, forth)[j]
      invariant forall j :: i <= j < |atoms| ==> r[j] == atoms[j]
    {
      r := r[i := r[i].(position := Sub(r[i].position, back[i]))];
      r := r[i := r[i].(position := Add(r[i].position, forth[i]))];
    }
  }

  /** The final loop: the last shift taken off, then the weighted moves and rates applied. */
  method Finish(atoms: seq<Atom>, ghost base: seq<Atom>, ghost t: Trace,
                m1: seq<Vec2>, m2: seq<Vec2>, m3: seq<Vec2>, m4: seq<Vec2>,
                k1: seq<Vec2>, k2: seq<Vec2>, k3: seq<Vec2>, k4: seq<Vec2>)
    returns (r: seq<Atom>)
    requires |m1| == |m2| == |m3| == |m4| == |k1| == |k2| == |k3| == |k4| == |base|
    requires t.s1.m == m1 && t.s2.m == m2 && t.s3.m == m3 && t.s4.m == m4
    requires t.s1.k == k1 && t.s2.k == k2 && t.s3.k == k3 && t.s4.k == k4
    requires atoms == Moved(base, m3)
    ensures r == Final(base, t)
  {
    r := atoms;
    for i := 0 to |atoms|
      invariant |r| == |atoms|
      invariant forall j :: 0 <= j < i ==> r[j] == Final(base, t)[j]
      invariant forall j :: i <= j < |atoms| ==> r[j] == atoms[j]
    {
      r := r[i := r[i].(position := Sub(r[i].position, m3[i]))];
      r := r[i := r[i].(position := Add(r[i].position, Weighted(m1[i], m2[i], m3[i], m4[i])),
                        speed := Add(r[i].speed, Weighted(k1[i], k2[i], k3[i], k4[i])))];
    }
  }

  /** A piston height and speed. */
  type PistonState = (real, real)

  /** The piston's new height and speed: it moves by the displacement and speeds up by the velocity change. */
  function PistonAdvance(y: real, speed: real, r: Piston): PistonState
  {
    (y + r.displacement, speed + r.velocityChange)
  }

  /**
   * The piston update as the worlds perform it: height and speed take each other's
   * increment. `PistonAsWrittenCounterexample` shows it differs from `PistonAdvance`.
   */
  function PistonAdvanceAsWritten(y: real, speed: real, r: Piston): PistonState
  {
    (y + r.velocityChange, speed + r.displacement)
  }

  /**
   * Under a force F that is the same in all four stages, the increments are exact:
   * the speed grows by F dt / M and the piston moves by v dt + (F dt / M) dt / 2.
   */
  lemma PistonUnderConstantForce(v: real, dt: real, mass: real, f: real)
    requires mass != 0.0
    ensures var r := PistonIncrements(v, dt, mass, f, f, f, f);
      && r.velocityChange == f * (dt / mass)
      && r.displacement == v * dt + f * (dt / mass) * dt / 2.0
  {
    var c := f * (dt / mass);
    ConstantRate(v, c, dt);
  }

  /** The weighted sum of the moves (v + 0) dt, (v + c/2) dt, (v + c/2) dt, (v + c) dt. */
  lemma ConstantRate(v: real, c: real, dt: real)
    ensures WeightedScalar(v * dt, (v + c / 2.0) * dt, (v + c / 2.0) * dt, (v + c) * dt) == v * dt + c * dt / 2.0
    ensures WeightedScalar(c, c, c, c) == c
  {
  }

  /**
   * With the corrected update, a piston under a constant force F ends the step where
   * uniformly accelerated motion puts it: y + v dt + F dt^2 / (2 M), at speed v + F dt / M.
   */
  lemma PistonAdvanceIsExact(y: real, v: real, dt: real, mass: real, f: real)
    requires mass != 0.0
    ensures PistonAdvance(y, v, PistonIncrements(v, dt, mass, f, f, f, f))
         == (y + v * dt + f * (dt / mass) * dt / 2.0, v + f * (dt / mass))
  {
    PistonUnderConstantForce(v, dt, mass, f);
  }

  /**
   * The update as written moves a free piston wrongly: at speed 1 with no force and
   * dt = 1 it stays where it is and speeds up to 2, where it should move by 1 and keep
   * its speed.
   */
  lemma PistonAsWrittenCounterexample(y: real)
    ensures PistonAdvanceAsWritten(y, 1.0, PistonIncrements(1.0, 1.0, 1.0, 0.0, 0.0, 0.0, 0.0)) == (y, 2.0)
    ensures PistonAdvance(y, 1.0, PistonIncrements(1.0, 1.0, 1.0, 0.0, 0.0, 0.0, 0.0)) == (y + 1.0, 1.0)
  {
    PistonUnderConstantForce(1.0, 1.0, 1.0, 0.0);
  }

  /** The vector form of `ConstantRate`: the weighted moves and rates of a constant rate k. */
  lemma WeightedConstantRate(v: Vec2, k: Vec2, dt: real)
    ensures Weighted(Scale(dt, v), Scale(dt, Add(v, Div(k, 2.0))), Scale(dt, Add(v, Div(k, 2.0))), Scale(dt, Add(v, k)))
         == Add(Scale(dt, v), Scale(dt / 2.0, k))
    ensures Weighted(k, k, k, k) == k
  {
    ConstantRate(v.x, k.x, dt);
    ConstantRate(v.y, k.y, dt);
  }

  /**
   * When every atom feels the same force g[i] in all four stages, the step is exact for
   * uniformly accelerated motion: with k = g[i] dt / mass, the atom moves by
   * v dt + k dt / 2 and its speed grows by k; its mass and species do not change.
   */
  lemma StepUnderUniformForces(p: Params, atoms: seq<Atom>, dt: real, wallSpeed: real, g: seq<Vec2>)
    requires StepDefined(p, atoms, dt)
    requires var t := StepTrace(p, atoms, dt);
      && StageForces(p, atoms).forces == g && StageForces(p, t.a2).forces == g
      && StageForces(p, t.a3).forces == g && StageForces(p, t.a4).forces == g
    ensures |g| == |atoms|
    ensures forall i :: 0 <= i < |atoms| ==>
      var k := Scale(dt / atoms[i].mass, g[i]);
      Step(p, atoms, dt, wallSpeed).atoms[i]
      == atoms[i].(position := Add(atoms[i].position, Add(Scale(dt, atoms[i].speed), Scale(dt / 2.0, k))),
                   speed := Add(atoms[i].speed, k))
  {
    var t := StepTrace(p, atoms, dt);
    forall i | 0 <= i < |atoms|
      ensures var k := Scale(dt / atoms[i].mass, g[i]);
        Step(p, atoms, dt, wallSpeed).atoms[i]
        == atoms[i].(position := Add(atoms[i].position, Add(Scale(dt, atoms[i].speed), Scale(dt / 2.0, k))),
                     speed := Add(atoms[i].speed, k))
    {
      var k := Scale(dt / atoms[i].mass, g[i]);
      var v := atoms[i].speed;
      assert t.s1.k[i] == k && t.s2.k[i] == k && t.s3.k[i] == k && t.s4.k[i] == k;
      assert t.s1.m[i] == Scale(dt, v);
      assert t.s2.m[i] == Scale(dt, Add(v, Div(k, 2.0)));
      assert t.s3.m[i] == Scale(dt, Add(v, Div(k, 2.0)));
      assert t.s4.m[i] == Scale(dt, Add(v, k));
      WeightedConstantRate(v, k, dt);
    }
  }

  /** A lone atom in a box without walls feels its weight only (when gravity is on). */
  lemma LoneStageForces(p: Params, b: Atom)
    requires !p.walls
    ensures Defined(p, [b])
    ensures StageForces(p, [b]).forces == [LoneWeight(p, b)]
  {
    var acc := Acc(Zeros(1), 0.0, 0.0);
    assert IntervalUpTo(p, [b], acc, 0, 0) == acc;
    assert InnerUpTo(p, [b], acc.forces, 0, 1) == acc.forces;
  }

  /** (dt / m) (0 - m / 2) = -dt / 2, and the height it leads to. */
  lemma FallComponents(y: real, v: real, dt: real, m: real)
    requires m != 0.0
    ensures (dt / m) * (0.0 - Gravity * m) == -(dt / 2.0)
    ensures y + (dt * v + dt / 2.0 * -(dt / 2.0)) == y + dt * v - dt * dt / 4.0
  {
  }

  /** The weight a lone atom feels in a box without walls: none when gravity is off. */
  function LoneWeight(p: Params, a: Atom): Vec2
  {
    if p.gravity then Vec2(0.0, 0.0 - Gravity * a.mass) else Zero
  }

  /**
   * A lone atom in a box without walls moves uniformly accelerated by its weight: with
   * k = weight dt / mass it moves by v dt + k dt / 2 and its speed grows by k.
   */
  lemma LoneAtomStep(p: Params, a: Atom, dt: real, wallSpeed: real)
    requires !p.walls && a.mass != 0.0 && p.pistonMass != 0.0
    ensures StepDefined(p, [a], dt)
    ensures var k := Scale(dt / a.mass, LoneWeight(p, a));
      Step(p, [a], dt, wallSpeed).atoms[0]
      == a.(position := Add(a.position, Add(Scale(dt, a.speed), Scale(dt / 2.0, k))),
            speed := Add(a.speed, k))
  {
    var g := [LoneWeight(p, a)];
    LoneStageForces(p, a);
    var s1 := StageAt(p, [a], dt, Zeros(1), First);
    var a2 := Moved([a], Halves(s1.m));
    assert a2 == [a2[0]];
    LoneStageForces(p, a2[0]);
    var s2 := StageAt(p, a2, dt, s1.k, Half);
    var a3 := Moved([a], Halves(s2.m));
    assert a3 == [a3[0]];
    LoneStageForces(p, a3[0]);
    var s3 := StageAt(p, a3, dt, s2.k, Half);
    var a4 := Moved([a], s3.m);
    assert a4 == [a4[0]];
    LoneStageForces(p, a4[0]);
    StepUnderUniformForces(p, [a], dt, wallSpeed, g);
  }

  /** The free-fall arithmetic: a step by the weight (0, -m / 2) is the parabola of acceleration 1/2. */
  lemma FallArithmetic(a: Atom, r: Atom, dt: real, w: Vec2)
    requires a.mass != 0.0 && w == Vec2(0.0, 0.0 - Gravity * a.mass)
    requires var k := Scale(dt / a.mass, w);
      r == a.(position := Add(a.position, Add(Scale(dt, a.speed), Scale(dt / 2.0, k))),
              speed := Add(a.speed, k))
    ensures r.position.x == a.position.x + dt * a.speed.x
    ensures r.position.y == a.position.y + dt * a.speed.y - dt * dt / 4.0
    ensures r.speed.x == a.speed.x && r.speed.y == a.speed.y - dt / 2.0
  {
    FallComponents(a.position.y, a.speed.y, dt, a.mass);
  }

  /** The coasting arithmetic: a step by a zero weight moves by v dt and keeps the speed. */
  lemma CoastArithmetic(a: Atom, r: Atom, dt: real, w: Vec2)
    requires a.mass != 0.0 && w == Zero
    requires var k := Scale(dt / a.mass, w);
      r == a.(position := Add(a.position, Add(Scale(dt, a.speed), Scale(dt / 2.0, k))),
              speed := Add(a.speed, k))
    ensures r.position.x == a.position.x + dt * a.speed.x
    ensures r.position.y == a.position.y + dt * a.speed.y
    ensures r.speed == a.speed
  {
  }

  /**
   * A lone atom without walls and under gravity follows the exact free-fall parabola
   * of the pass's acceleration 1/2: it moves by v dt - (0, dt^2 / 4) and its vertical
   * speed drops by dt / 2.
   */
  lemma LoneAtomFalls(p: Params, a: Atom, dt: real, wallSpeed: real)
    requires !p.walls && p.gravity && a.mass != 0.0 && p.pistonMass != 0.0
    ensures StepDefined(p, [a], dt)
    ensures var r := Step(p, [a], dt, wallSpeed).atoms[0];
      && r.position.x == a.position.x + dt * a.speed.x
      && r.position.y == a.position.y + dt * a.speed.y - dt * dt / 4.0
      && r.speed.x == a.speed.x && r.speed.y == a.speed.y - dt / 2.0
      && r.mass == a.mass && r.atomType == a.atomType
  {
    LoneAtomStep(p, a, dt, wallSpeed);
    FallArithmetic(a, Step(p, [a], dt, wallSpeed).atoms[0], dt, LoneWeight(p, a));
  }

  /** Without walls and gravity a lone atom coasts: it moves by v dt and keeps its speed. */
  lemma LoneAtomCoasts(p: Params, a: Atom, dt: real, wallSpeed: real)
    requires !p.walls && !p.gravity && a.mass != 0.0 && p.pistonMass != 0.0
    ensures StepDefined(p, [a], dt)
    ensures var r := Step(p, [a], dt, wallSpeed).atoms[0];
      && r.position.x == a.position.x + dt * a.speed.x
      && r.position.y == a.position.y + dt * a.speed.y
      && r.speed == a.speed && r.mass == a.mass && r.atomType == a.atomType
  {
    LoneAtomStep(p, a, dt, wallSpeed);
    CoastArithmetic(a, Step(p, [a], dt, wallSpeed).atoms[0], dt, LoneWeight(p, a));
  }
}
