/**
 * The force pass shared by both worlds: pair forces over i < j accumulated in place,
 * then the four wall forces and gravity of every atom, over an index interval, and the
 * split of [0, N) into one interval per worker run one after the other.
 *
 * A `Params` value holds what the pass reads from its world: the interaction table,
 * the box width, the current box height (`getBoxHeight()`), whether walls and gravity
 * apply, and the piston mass.
 */
module ForcePass {
  import opened Powers
  import opened Vectors
  import opened Atoms
  import opened Interactions
  import opened LennardJones

  type Table = map<(AtomType, AtomType), InteractionInfo>

  /** One visited pair of atom indices. */
  type Visit = (int, int)

  datatype Params = Params(
    table: Table,
    boxWidth: real,
    boxHeight: real,
    walls: bool,
    gravity: bool,
    pistonMass: real)

  /** What the pass accumulates: one force per atom, the wall impulse and the piston force. */
  datatype Acc = Acc(forces: seq<Vec2>, impulse: real, pistonForce: real)

  /** The gravitational acceleration of the pass. */
  const Gravity: real := 0.5

  /** The bounding-box test that skips a pair before its distance is computed. */
  predicate Skipped(pi: Vec2, pj: Vec2, info: InteractionInfo)
  {
    Abs(pi.x - pj.x) > 2.5 * info.sigma || Abs(pi.y - pj.y) > 2.5 * info.sigma
  }

  /** The pair's table entry exists and, unless the pair is skipped, its force is defined. */
  predicate PairDefined(p: Params, a: Atom, b: Atom)
  {
    && (a.atomType, b.atomType) in p.table
    && (Skipped(a.position, b.position, p.table[(a.atomType, b.atomType)])
        || ForceDefined(NormSqr(Sub(a.position, b.position)), p.table[(a.atomType, b.atomType)]))
  }

  /** With walls on, the wall entry exists and no wall distance is zero. */
  predicate WallDefined(p: Params, a: Atom)
  {
    p.walls ==>
      && (a.atomType, Wall) in p.table
      && a.position.x != 0.0 && a.position.y != 0.0
      && p.boxWidth - a.position.x != 0.0 && p.boxHeight - a.position.y != 0.0
  }

  /** Everything the pass looks up or divides by is defined. */
  predicate Defined(p: Params, atoms: seq<Atom>)
  {
    && (forall i, j :: 0 <= i < j < |atoms| ==> PairDefined(p, atoms[i], atoms[j]))
    && (forall i :: 0 <= i < |atoms| ==> WallDefined(p, atoms[i]))
  }

  /** The body of the inner loop for the pair (i, j). */
  function PairStep(p: Params, atoms: seq<Atom>, forces: seq<Vec2>, i: nat, j: nat): (r: seq<Vec2>)
    requires i < j < |atoms| == |forces|
    requires PairDefined(p, atoms[i], atoms[j])
    ensures |r| == |forces|
  {
    var info := p.table[(atoms[i].atomType, atoms[j].atomType)];
    if Skipped(atoms[i].position, atoms[j].position, info) then forces
    else
      var f := PairForce(atoms[i].position, atoms[j].position, info);
      forces[i := Add(forces[i], f)][j := Sub(forces[j], f)]
  }

  /** The forces after the inner loop of row i has handled j' = i + 1 .. j - 1. */
  function InnerUpTo(p: Params, atoms: seq<Atom>, forces: seq<Vec2>, i: nat, j: nat): (r: seq<Vec2>)
    requires i < j <= |atoms| == |forces|
    requires Defined(p, atoms)
    ensures |r| == |forces|
    decreases j
  {
    if j == i + 1 then forces
    else PairStep(p, atoms, InnerUpTo(p, atoms, forces, i, j - 1), i, j - 1)
  }

  /** The four wall forces on atom i (left, top, right, bottom), when walls apply. */
  function WallStep(p: Params, a: Atom, i: nat, acc: Acc): (r: Acc)
    requires i < |acc.forces| && WallDefined(p, a)
    ensures |r.forces| == |acc.forces|
  {
    if !p.walls then acc
    else
      var info := p.table[(a.atomType, Wall)];
      var left := WallForce(a.position.x, info);
      var top := WallForce(a.position.y, info);
      var right := WallForce(p.boxWidth - a.position.x, info);
      var bottom := WallForce(p.boxHeight - a.position.y, info);
      var f := acc.forces[i];
      Acc(acc.forces[i := Vec2(f.x + left - right, f.y + top - bottom)],
          acc.impulse + left + top + right + bottom,
          acc.pistonForce + bottom)
  }

  /** Gravity pulls atom i down by 0.5 mass and the piston by 0.5 piston mass. */
  function GravityStep(p: Params, a: Atom, i: nat, acc: Acc): (r: Acc)
    requires i < |acc.forces|
    ensures |r.forces| == |acc.forces|
  {
    if !p.gravity then acc
    else
      var f := acc.forces[i];
      Acc(acc.forces[i := Vec2(f.x, f.y - Gravity * a.mass)],
          acc.impulse,
          acc.pistonForce - Gravity * p.pistonMass)
  }

  /** One iteration of the outer loop: the pairs (i, j > i), then walls and gravity of i. */
  function AtomStep(p: Params, atoms: seq<Atom>, acc: Acc, i: nat): (r: Acc)
    requires i < |atoms| == |acc.forces|
    requires Defined(p, atoms)
    ensures |r.forces| == |atoms|
  {
    var pairs := InnerUpTo(p, atoms, acc.forces, i, |atoms|);
    GravityStep(p, atoms[i], i, WallStep(p, atoms[i], i, Acc(pairs, acc.impulse, acc.pistonForce)))
  }

  /** `getForcesForInterval` over [begin, k), as a function of what it starts from. */
  function IntervalUpTo(p: Params, atoms: seq<Atom>, acc: Acc, begin: nat, k: nat): (r: Acc)
    requires begin <= k <= |atoms| == |acc.forces|
    requires Defined(p, atoms)
    ensures |r.forces| == |atoms|
    decreases k
  {
    if k == begin then acc
    else AtomStep(p, atoms, IntervalUpTo(p, atoms, acc, begin, k - 1), k - 1)
  }

  /**
   * `getForcesForInterval(forces, impulse, moving_wall_force, begin, end)`: accumulates
   * into the caller's force array in place and returns the updated impulse and piston
   * force, with the pairs the inner loop visited, in order.
   */
  method ForcesForInterval(p: Params, atoms: seq<Atom>, forces: array<Vec2>,
                           impulse: real, pistonForce: real, begin: nat, end: nat)
    returns (newImpulse: real, newPistonForce: real, ghost visited: seq<Visit>)
    requires forces.Length == |atoms| && begin <= end <= |atoms|
    requires Defined(p, atoms)
    modifies forces
    ensures Acc(forces[..], newImpulse, newPistonForce)
         == IntervalUpTo(p, atoms, Acc(old(forces[..]), impulse, pistonForce), begin, end)
    ensures visited == Visits(|atoms|, begin, end)
  {
    var n := |atoms|;
    ghost var acc0 := Acc(forces[..], impulse, pistonForce);
    newImpulse, newPistonForce := impulse, pistonForce;
    visited := [];
    for i := begin to end
      invariant Acc(forces[..], newImpulse, newPistonForce) == IntervalUpTo(p, atoms, acc0, begin, i)
      invariant visited == Visits(n, begin, i)
    {
      ghost var before := Acc(forces[..], newImpulse, newPistonForce);
      ghost var row := PairForces(p, atoms, forces, i);
      visited := visited + row;
      ghost var pairs := forces[..];
      newImpulse, newPistonForce := WallForces(p, atoms[i], forces, i, newImpulse, newPistonForce);
      ghost var walls := Acc(forces[..], newImpulse, newPistonForce);
      newPistonForce := GravityForce(p, atoms[i], forces, i, newPistonForce);
      GravityKeepsImpulse(p, atoms[i], i, walls);
      AtomStepComposed(p, atoms, before, i, pairs, walls, Acc(forces[..], newImpulse, newPistonForce));
      IntervalUpToNext(p, atoms, acc0, begin, i);
    }
  }

  /** Gravity leaves the impulse as it is and acts the same whatever the impulse so far. */
  lemma GravityKeepsImpulse(p: Params, a: Atom, i: nat, acc: Acc)
    requires i < |acc.forces|
    ensures GravityStep(p, a, i, acc) == GravityStep(p, a, i, acc.(impulse := 0.0)).(impulse := acc.impulse)
  {
  }

  /** The pair, wall and gravity parts, applied in this order, make up one outer iteration. */
  lemma AtomStepComposed(p: Params, atoms: seq<Atom>, before: Acc, i: nat, pairs: seq<Vec2>, walls: Acc, after: Acc)
    requires i < |atoms| == |before.forces| && Defined(p, atoms)
    requires pairs == InnerUpTo(p, atoms, before.forces, i, |atoms|)
    requires walls == WallStep(p, atoms[i], i, Acc(pairs, before.impulse, before.pistonForce))
    requires after == GravityStep(p, atoms[i], i, walls)
    ensures after == AtomStep(p, atoms, before, i)
  {
  }

  /** One more outer iteration extends the interval by one atom. */
  lemma IntervalUpToNext(p: Params, atoms: seq<Atom>, acc: Acc, begin: nat, k: nat)
    requires begin <= k < |atoms| == |acc.forces| && Defined(p, atoms)
    ensures IntervalUpTo(p, atoms, acc, begin, k + 1) == AtomStep(p, atoms, IntervalUpTo(p, atoms, acc, begin, k), k)
  {
  }

  /** The atom - atom part of one outer iteration: the inner loop over j = i + 1 .. n - 1. */
  method PairForces(p: Params, atoms: seq<Atom>, forces: array<Vec2>, i: nat)
    returns (ghost row: seq<Visit>)
    requires forces.Length == |atoms| && i < |atoms|
    requires Defined(p, atoms)
    modifies forces
    ensures forces[..] == InnerUpTo(p, atoms, old(forces[..]), i, |atoms|)
    ensures row == Row(i, |atoms|)
  {
    var n := |atoms|;
    ghost var rowStart := forces[..];
    row := [];
    for j := i + 1 to n
      invariant forces[..] == InnerUpTo(p, atoms, rowStart, i, j)
      invariant row == RowVisits(i, j)
    {
      row := row + [(i, j)];
      var interaction := p.table[(atoms[i].atomType, atoms[j].atomType)];
      if Abs(atoms[i].position.x - atoms[j].position.x) > 2.5 * interaction.sigma {
        continue;
      }
      if Abs(atoms[i].position.y - atoms[j].position.y) > 2.5 * interaction.sigma {
        continue;
      }
      var distanceSqr := NormSqr(Sub(atoms[i].position, atoms[j].position));
      var f := Scale(Force(distanceSqr, interaction), Sub(atoms[i].position, atoms[j].position));
      forces[i] := Add(forces[i], f);
      forces[j] := Sub(forces[j], f);
    }
  }

  /** The atom - wall part: left, top, right and bottom wall, when walls apply. */
  method WallForces(p: Params, a: Atom, forces: array<Vec2>, i: nat, impulse: real, pistonForce: real)
    returns (newImpulse: real, newPistonForce: real)
    requires i < forces.Length && WallDefined(p, a)
    modifies forces
    ensures Acc(forces[..], newImpulse, newPistonForce) == WallStep(p, a, i, Acc(old(forces[..]), impulse, pistonForce))
  {
    newImpulse, newPistonForce := impulse, pistonForce;
    if p.walls {
      var wallInteraction := p.table[(a.atomType, Wall)];
      // left wall
      var wf := WallForce(a.position.x, wallInteraction);
      forces[i] := forces[i].(x := forces[i].x + wf);
      newImpulse := newImpulse + wf;
      // top wall
      wf := WallForce(a.position.y, wallInteraction);
      forces[i] := forces[i].(y := forces[i].y + wf);
      newImpulse := newImpulse + wf;
      // right wall
      wf := WallForce(p.boxWidth - a.position.x, wallInteraction);
      forces[i] := forces[i].(x := forces[i].x - wf);
      newImpulse := newImpulse + wf;
      // bottom wall
      wf := WallForce(p.boxHeight - a.position.y, wallInteraction);
      forces[i] := forces[i].(y := forces[i].y - wf);
      newImpulse := newImpulse + wf;
      newPistonForce := newPistonForce + wf;
    }
  }

  /** The gravitation part: pulls atom i and the piston down. */
  method GravityForce(p: Params, a: Atom, forces: array<Vec2>, i: nat, pistonForce: real)
    returns (newPistonForce: real)
    requires i < forces.Length
    modifies forces
    ensures Acc(forces[..], 0.0, newPistonForce) == GravityStep(p, a, i, Acc(old(forces[..]), 0.0, pistonForce))
  {
    newPistonForce := pistonForce;
    if p.gravity {
      forces[i] := forces[i].(y := forces[i].y - Gravity * a.mass);
      newPistonForce := newPistonForce - Gravity * p.pistonMass;
    }
  }

  /** The pairs (i, j) with i < j < n, in the inner loop's order: the row of i up to j. */
  function RowVisits(i: nat, j: nat): (r: seq<Visit>)
    requires i < j
    decreases j
  {
    if j == i + 1 then [] else RowVisits(i, j - 1) + [(i, j - 1)]
  }

  /** The pairs the outer loop over [begin, end) visits, row after row. */
  function Visits(n: nat, begin: nat, end: nat): seq<Visit>
    requires begin <= end
    decreases end
  {
    if end == begin then [] else Visits(n, begin, end - 1) + Row(end - 1, n)
  }

  /** The whole row of i: the pairs (i, j) for j = i + 1 .. n - 1 (empty when i + 1 >= n). */
  function Row(i: nat, n: nat): seq<Visit>
  {
    if i + 1 <= n then RowVisits(i, n) else []
  }

  /** The first index of worker t's slice, with c = N div T atoms per worker. */
  function SliceBegin(countPerThread: nat, t: nat): nat
  {
    countPerThread * t
  }

  /** The end of worker t's slice: the last worker takes everything up to N. */
  function SliceEnd(n: nat, threads: nat, countPerThread: nat, t: nat): nat
  {
    if t == threads - 1 then n else countPerThread * (t + 1)
  }

  /** How far the sequential run of the workers has got before worker t. */
  function Reached(n: nat, threads: nat, countPerThread: nat, t: nat): nat
  {
    if t < threads then SliceBegin(countPerThread, t) else n
  }

  /**
   * The slices of T >= 1 workers over [0, N) are contiguous and ordered: the first
   * starts at 0, each ends where the next begins, and the last ends at N.
   */
  lemma SlicesContiguous(n: nat, threads: nat)
    requires threads >= 1
    ensures var c := n / threads;
      && SliceBegin(c, 0) == 0
      && SliceEnd(n, threads, c, threads - 1) == n
      && (forall t :: 0 <= t < threads - 1 ==> SliceEnd(n, threads, c, t) == SliceBegin(c, t + 1))
      && (forall t :: 0 <= t < threads ==> SliceBegin(c, t) <= SliceEnd(n, threads, c, t) <= n)
  {
    var c := n / threads;
    forall t | 0 <= t < threads
      ensures SliceBegin(c, t) <= SliceEnd(n, threads, c, t) <= n
    {
      SliceBounds(n, threads, t);
    }
  }

  lemma SliceBounds(n: nat, threads: nat, t: nat)
    requires threads >= 1 && t < threads
    ensures var c := n / threads;
      SliceBegin(c, t) <= SliceEnd(n, threads, c, t) <= n
  {
    var c := n / threads;
    assert c * threads <= n;
    assert c * t <= c * (t + 1) <= c * threads by {
      MultiplyMonotoneNat(c, t, t + 1);
      MultiplyMonotoneNat(c, t + 1, threads);
    }
    if t == threads - 1 {
      assert c * t <= c * threads;
    }
  }

  lemma MultiplyMonotoneNat(c: nat, a: nat, b: nat)
    requires a <= b
    ensures c * a <= c * b
  {
    assert c * b - c * a == c * (b - a);
  }

  /**
   * Every index of [0, N) lies in exactly one worker's slice: the slices are disjoint
   * and cover [0, N).
   */
  lemma SlicesCover(n: nat, threads: nat, k: nat)
    requires threads >= 1 && k < n
    ensures var c := n / threads;
      && (exists t :: 0 <= t < threads && SliceBegin(c, t) <= k < SliceEnd(n, threads, c, t))
      && (forall t, u ::
            (0 <= t < threads && 0 <= u < threads
             && SliceBegin(c, t) <= k < SliceEnd(n, threads, c, t)
             && SliceBegin(c, u) <= k < SliceEnd(n, threads, c, u)) ==> t == u)
  {
    var c := n / threads;
    SlicesContiguous(n, threads);
    // the last slice whose beginning is at most k holds k
    var t := 0;
    while t < threads - 1 && SliceEnd(n, threads, c, t) <= k
      invariant 0 <= t < threads && SliceBegin(c, t) <= k
      decreases threads - t
    {
      t := t + 1;
    }
    assert SliceBegin(c, t) <= k < SliceEnd(n, threads, c, t);
    forall t1, u | 0 <= t1 < threads && 0 <= u < threads
        && SliceBegin(c, t1) <= k < SliceEnd(n, threads, c, t1)
        && SliceBegin(c, u) <= k < SliceEnd(n, threads, c, u)
      ensures t1 == u
    {
      if t1 < u {
        SlicesOrdered(n, threads, t1, u);
      } else if u < t1 {
        SlicesOrdered(n, threads, u, t1);
      }
    }
  }

  /** An earlier slice ends before a later one begins. */
  lemma {:induction false} SlicesOrdered(n: nat, threads: nat, t: nat, u: nat)
    requires threads >= 1 && t < u < threads
    ensures var c := n / threads;
      SliceEnd(n, threads, c, t) <= SliceBegin(c, u)
    decreases u - t
  {
    var c := n / threads;
    SlicesContiguous(n, threads);
    if t + 1 < u {
      SlicesOrdered(n, threads, t + 1, u);
      SliceBounds(n, threads, t + 1);
    }
  }

  /** Running [a, b) and then [b, e) is running [a, e). */
  lemma {:induction false} IntervalConcat(p: Params, atoms: seq<Atom>, acc: Acc, a: nat, b: nat, e: nat)
    requires a <= b <= e <= |atoms| == |acc.forces|
    requires Defined(p, atoms)
    ensures IntervalUpTo(p, atoms, IntervalUpTo(p, atoms, acc, a, b), b, e) == IntervalUpTo(p, atoms, acc, a, e)
    decreases e
  {
    if e > b {
      IntervalConcat(p, atoms, acc, a, b, e - 1);
    }
  }

  /** The pairs of [a, b) followed by those of [b, e) are the pairs of [a, e). */
  lemma {:induction false} VisitsConcat(n: nat, a: nat, b: nat, e: nat)
    requires a <= b <= e
    ensures Visits(n, a, b) + Visits(n, b, e) == Visits(n, a, e)
    decreases e
  {
    if e > b {
      VisitsConcat(n, a, b, e - 1);
    }
  }

  /**
   * `getForces`: the interval pass of each of the T workers over its slice, one after
   * the other. The result is the pass over [0, N) whatever T is.
   */
  method Forces(p: Params, atoms: seq<Atom>, forces: array<Vec2>,
                impulse: real, pistonForce: real, threads: nat)
    returns (newImpulse: real, newPistonForce: real, ghost visited: seq<Visit>)
    requires forces.Length == |atoms| && threads >= 1
    requires Defined(p, atoms)
    modifies forces
    ensures Acc(forces[..], newImpulse, newPistonForce)
         == IntervalUpTo(p, atoms, Acc(old(forces[..]), impulse, pistonForce), 0, |atoms|)
    ensures visited == Visits(|atoms|, 0, |atoms|)
  {
    var n := |atoms|;
    ghost var acc0 := Acc(forces[..], impulse, pistonForce);
    var countPerThread := n / threads;
    SlicesContiguous(n, threads);
    newImpulse, newPistonForce := impulse, pistonForce;
    visited := [];
    for t := 0 to threads
      invariant Acc(forces[..], newImpulse, newPistonForce)
             == IntervalUpTo(p, atoms, acc0, 0, Reached(n, threads, countPerThread, t))
      invariant visited == Visits(n, 0, Reached(n, threads, countPerThread, t))
    {
      var begin := countPerThread * t;
      var end := if t == threads - 1 then n else countPerThread * (t + 1);
      assert begin == Reached(n, threads, countPerThread, t);
      assert end == Reached(n, threads, countPerThread, t + 1);
      ghost var v;
      newImpulse, newPistonForce, v := ForcesForInterval(p, atoms, forces, newImpulse, newPistonForce, begin, end);
      IntervalConcat(p, atoms, acc0, 0, begin, end);
      VisitsConcat(n, 0, begin, end);
      visited := visited + v;
    }
  }

  /** The number of occurrences of the pair (a, b) in s. */
  function Count(s: seq<Visit>, a: nat, b: nat): nat
    decreases |s|
  {
    if s == [] then 0 else Count(s[..|s| - 1], a, b) + (if s[|s| - 1] == (a, b) then 1 else 0)
  }

  lemma {:induction false} CountAppend(s: seq<Visit>, t: seq<Visit>, a: nat, b: nat)
    ensures Count(s + t, a, b) == Count(s, a, b) + Count(t, a, b)
    decreases |t|
  {
    if t == [] {
      assert s + t == s;
    } else {
      CountAppend(s, t[..|t| - 1], a, b);
      assert (s + t)[..|s + t| - 1] == s + t[..|t| - 1];
    }
  }

  /** How many times the pair (a, b) occurs among the first pairs of the row of r. */
  lemma {:induction false} RowVisitsCount(r: nat, j: nat, a: nat, b: nat)
    requires r < j
    ensures Count(RowVisits(r, j), a, b) == if a == r && r < b < j then 1 else 0
    decreases j
  {
    if j > r + 1 {
      RowVisitsCount(r, j - 1, a, b);
      CountAppend(RowVisits(r, j - 1), [(r, j - 1)], a, b);
    }
  }

  /**
   * Over [begin, end) the inner loop visits every pair (i, j) with begin <= i < end and
   * i < j < N exactly once, and no other pair.
   */
  lemma {:induction false} VisitsExactlyOnce(n: nat, begin: nat, end: nat, a: nat, b: nat)
    requires begin <= end
    ensures Count(Visits(n, begin, end), a, b) == if begin <= a < end && a < b < n then 1 else 0
    decreases end
  {
    if end > begin {
      VisitsExactlyOnce(n, begin, end - 1, a, b);
      VisitsStep(n, begin, end, a, b);
    }
  }

  /** Appending the row of end - 1 adds exactly that row's pairs to the counts. */
  lemma VisitsStep(n: nat, begin: nat, end: nat, a: nat, b: nat)
    requires begin < end
    requires Count(Visits(n, begin, end - 1), a, b) == if begin <= a < end - 1 && a < b < n then 1 else 0
    ensures Count(Visits(n, begin, end), a, b) == if begin <= a < end && a < b < n then 1 else 0
  {
    CountAppend(Visits(n, begin, end - 1), Row(end - 1, n), a, b);
    RowCount(end - 1, n, a, b);
  }

  /** The whole row of i holds the pair (a, b) once when a is i and b is past it, else never. */
  lemma RowCount(i: nat, n: nat, a: nat, b: nat)
    ensures Count(Row(i, n), a, b) == if a == i && i < b < n then 1 else 0
  {
    if i + 1 <= n {
      RowVisitsCount(i, n, a, b);
    }
  }

  /** The sum of the forces is unchanged by one pair: f is added at i and taken at j. */
  lemma PairStepKeepsSum(p: Params, atoms: seq<Atom>, forces: seq<Vec2>, i: nat, j: nat)
    requires i < j < |atoms| == |forces|
    requires PairDefined(p, atoms[i], atoms[j])
    ensures Sum(PairStep(p, atoms, forces, i, j)) == Sum(forces)
  {
    var info := p.table[(atoms[i].atomType, atoms[j].atomType)];
    if !Skipped(atoms[i].position, atoms[j].position, info) {
      SumOfOppositeUpdates(forces, i, j, PairForce(atoms[i].position, atoms[j].position, info));
    }
  }

  /** The pair forces of a row sum to zero: the atom - atom phase keeps the total force. */
  lemma {:induction false} InnerKeepsSum(p: Params, atoms: seq<Atom>, forces: seq<Vec2>, i: nat, j: nat)
    requires i < j <= |atoms| == |forces|
    requires Defined(p, atoms)
    ensures Sum(InnerUpTo(p, atoms, forces, i, j)) == Sum(forces)
    decreases j
  {
    if j > i + 1 {
      InnerKeepsSum(p, atoms, forces, i, j - 1);
      PairStepKeepsSum(p, atoms, InnerUpTo(p, atoms, forces, i, j - 1), i, j - 1);
    }
  }

  /** The external force on one atom: its four wall forces and its weight. */
  function ExternalForce(p: Params, a: Atom): Vec2
    requires WallDefined(p, a)
  {
    var walls :=
      if p.walls then
        var info := p.table[(a.atomType, Wall)];
        Vec2(WallForce(a.position.x, info) - WallForce(p.boxWidth - a.position.x, info),
             WallForce(a.position.y, info) - WallForce(p.boxHeight - a.position.y, info))
      else Zero;
    if p.gravity then Add(walls, Vec2(0.0, -(Gravity * a.mass))) else walls
  }

  /** The wall impulse one atom contributes: its four wall forces, when walls apply. */
  function WallImpulse(p: Params, a: Atom): real
    requires WallDefined(p, a)
  {
    if p.walls then
      var info := p.table[(a.atomType, Wall)];
      WallForce(a.position.x, info) + WallForce(a.position.y, info)
      + WallForce(p.boxWidth - a.position.x, info) + WallForce(p.boxHeight - a.position.y, info)
    else 0.0
  }

  /** What one atom adds to the piston force: its bottom-wall force, minus the piston's weight. */
  function PistonShare(p: Params, a: Atom): real
    requires WallDefined(p, a)
  {
    (if p.walls then WallForce(p.boxHeight - a.position.y, p.table[(a.atomType, Wall)]) else 0.0)
    - (if p.gravity then Gravity * p.pistonMass else 0.0)
  }

  /** The external forces, wall impulses and piston shares of the atoms in [begin, end). */
  function Externals(p: Params, atoms: seq<Atom>, begin: nat, end: nat): (r: Acc)
    requires begin <= end <= |atoms|
    requires Defined(p, atoms)
    decreases end
  {
    if end == begin then Acc([], 0.0, 0.0)
    else
      var prev := Externals(p, atoms, begin, end - 1);
      var a := atoms[end - 1];
      Acc(prev.forces + [ExternalForce(p, a)],
          prev.impulse + WallImpulse(p, a),
          prev.pistonForce + PistonShare(p, a))
  }

  /** One outer iteration adds the atom's external force to the total force. */
  lemma AtomStepTotals(p: Params, atoms: seq<Atom>, acc: Acc, i: nat)
    requires i < |atoms| == |acc.forces|
    requires Defined(p, atoms)
    ensures var r := AtomStep(p, atoms, acc, i);
      && Sum(r.forces) == Add(Sum(acc.forces), ExternalForce(p, atoms[i]))
      && r.impulse == acc.impulse + WallImpulse(p, atoms[i])
      && r.pistonForce == acc.pistonForce + PistonShare(p, atoms[i])
  {
    var a := atoms[i];
    var pairs := InnerUpTo(p, atoms, acc.forces, i, |atoms|);
    InnerKeepsSum(p, atoms, acc.forces, i, |atoms|);
    var w := WallStep(p, a, i, Acc(pairs, acc.impulse, acc.pistonForce));
    if p.walls {
      SumUpdate(pairs, i, w.forces[i]);
    }
    var g := GravityStep(p, a, i, w);
    if p.gravity {
      SumUpdate(w.forces, i, g.forces[i]);
    }
  }

  /**
   * Over an interval, the total force grows by exactly the atoms' external forces (the
   * pair forces cancel), the impulse by their wall forces and the piston force by their
   * bottom-wall forces minus the piston's weight per atom.
   */
  lemma IntervalTotals(p: Params, atoms: seq<Atom>, acc: Acc, begin: nat, end: nat)
    requires begin <= end <= |atoms| == |acc.forces|
    requires Defined(p, atoms)
    ensures var r := IntervalUpTo(p, atoms, acc, begin, end);
      var x := Externals(p, atoms, begin, end);
      && Sum(r.forces) == Add(Sum(acc.forces), Sum(x.forces))
      && r.impulse == acc.impulse + x.impulse
      && r.pistonForce == acc.pistonForce + x.pistonForce
  {
    IntervalForceTotal(p, atoms, acc, begin, end);
    IntervalImpulseTotal(p, atoms, acc, begin, end);
    IntervalPistonTotal(p, atoms, acc, begin, end);
  }

  /** The total force over an interval grows by exactly the atoms' external forces. */
  lemma {:induction false} IntervalForceTotal(p: Params, atoms: seq<Atom>, acc: Acc, begin: nat, end: nat)
    requires begin <= end <= |atoms| == |acc.forces|
    requires Defined(p, atoms)
    ensures Sum(IntervalUpTo(p, atoms, acc, begin, end).forces)
         == Add(Sum(acc.forces), Sum(Externals(p, atoms, begin, end).forces))
    decreases end
  {
    if end > begin {
      IntervalForceTotal(p, atoms, acc, begin, end - 1);
      IntervalStepTotals(p, atoms, acc, begin, end);
      var x := Externals(p, atoms, begin, end - 1).forces;
      var e := ExternalForce(p, atoms[end - 1]);
      assert Externals(p, atoms, begin, end).forces == x + [e];
      SumAppend(x, e);
      RegroupSum(Sum(acc.forces), Sum(x), e,
                 Sum(IntervalUpTo(p, atoms, acc, begin, end - 1).forces),
                 Sum(IntervalUpTo(p, atoms, acc, begin, end).forces),
                 Sum(Externals(p, atoms, begin, end).forces));
    }
  }

  /** The wall impulse over an interval grows by exactly the atoms' wall forces. */
  lemma {:induction false} IntervalImpulseTotal(p: Params, atoms: seq<Atom>, acc: Acc, begin: nat, end: nat)
    requires begin <= end <= |atoms| == |acc.forces|
    requires Defined(p, atoms)
    ensures IntervalUpTo(p, atoms, acc, begin, end).impulse
         == acc.impulse + Externals(p, atoms, begin, end).impulse
    decreases end
  {
    if end > begin {
      IntervalImpulseTotal(p, atoms, acc, begin, end - 1);
      IntervalStepTotals(p, atoms, acc, begin, end);
    }
  }

  /** The piston force over an interval grows by exactly the atoms' piston shares. */
  lemma {:induction false} IntervalPistonTotal(p: Params, atoms: seq<Atom>, acc: Acc, begin: nat, end: nat)
    requires begin <= end <= |atoms| == |acc.forces|
    requires Defined(p, atoms)
    ensures IntervalUpTo(p, atoms, acc, begin, end).pistonForce
         == acc.pistonForce + Externals(p, atoms, begin, end).pistonForce
    decreases end
  {
    if end > begin {
      IntervalPistonTotal(p, atoms, acc, begin, end - 1);
      IntervalStepTotals(p, atoms, acc, begin, end);
    }
  }

  /** The last outer iteration of an interval adds that atom's external force and shares. */
  lemma IntervalStepTotals(p: Params, atoms: seq<Atom>, acc: Acc, begin: nat, end: nat)
    requires begin < end <= |atoms| == |acc.forces|
    requires Defined(p, atoms)
    ensures var mid := IntervalUpTo(p, atoms, acc, begin, end - 1);
      var r := IntervalUpTo(p, atoms, acc, begin, end);
      var a := atoms[end - 1];
      && Sum(r.forces) == Add(Sum(mid.forces), ExternalForce(p, a))
      && r.impulse == mid.impulse + WallImpulse(p, a)
      && r.pistonForce == mid.pistonForce + PistonShare(p, a)
  {
    var mid := IntervalUpTo(p, atoms, acc, begin, end - 1);
    assert IntervalUpTo(p, atoms, acc, begin, end) == AtomStep(p, atoms, mid, end - 1);
    AtomStepTotals(p, atoms, mid, end - 1);
  }

  lemma SumAppend(s: seq<Vec2>, v: Vec2)
    ensures Sum(s + [v]) == Add(Sum(s), v)
  {
    assert (s + [v])[..|s|] == s;
  }

  lemma RegroupSum(start: Vec2, before: Vec2, last: Vec2, mid: Vec2, r: Vec2, total: Vec2)
    requires mid == Add(start, before) && r == Add(mid, last) && total == Add(before, last)
    ensures r == Add(start, total)
  {
  }

  /**
   * The bounding-box skip never drops a force: for a consistent entry with sigma >= 0,
   * a pair more than 2.5 sigma apart along an axis is beyond the cutoff, where the
   * force is zero.
   */
  lemma SkipIsSound(pi: Vec2, pj: Vec2, info: InteractionInfo)
    requires Consistent(info) && info.sigma >= 0.0
    requires Skipped(pi, pj, info)
    ensures NormSqr(Sub(pi, pj)) >= CutoffSqr(info)
    ensures Force(NormSqr(Sub(pi, pj)), info) == 0.0
  {
    var d := Sub(pi, pj);
    var bound := 2.5 * info.sigma;
    SqScale(2.5, info.sigma);
    assert Sq(bound) == CutoffSqr(info);
    SqFacts(d.x);
    SqFacts(d.y);
    if Abs(d.x) > bound {
      AbsBeyond(d.x, bound);
    } else {
      AbsBeyond(d.y, bound);
    }
  }

  lemma AbsBeyond(x: real, bound: real)
    requires 0.0 <= bound < Abs(x)
    ensures Sq(bound) < Sq(x)
  {
    SqMonotone(Abs(x), bound);
    SqNeg(x);
  }

  /**
   * The skip is only a shortcut: with a consistent entry and sigma >= 0, every pair
   * step equals the unconditional update forces[i] += f, forces[j] -= f.
   */
  lemma PairStepUnskipped(p: Params, atoms: seq<Atom>, forces: seq<Vec2>, i: nat, j: nat)
    requires i < j < |atoms| == |forces|
    requires PairDefined(p, atoms[i], atoms[j])
    requires Consistent(p.table[(atoms[i].atomType, atoms[j].atomType)])
    requires p.table[(atoms[i].atomType, atoms[j].atomType)].sigma >= 0.0
    ensures ForceDefined(NormSqr(Sub(atoms[i].position, atoms[j].position)),
                         p.table[(atoms[i].atomType, atoms[j].atomType)])
    ensures var f := PairForce(atoms[i].position, atoms[j].position,
                               p.table[(atoms[i].atomType, atoms[j].atomType)]);
      PairStep(p, atoms, forces, i, j) == forces[i := Add(forces[i], f)][j := Sub(forces[j], f)]
  {
    var info := p.table[(atoms[i].atomType, atoms[j].atomType)];
    if Skipped(atoms[i].position, atoms[j].position, info) {
      SkipIsSound(atoms[i].position, atoms[j].position, info);
      var f := PairForce(atoms[i].position, atoms[j].position, info);
      assert Add(forces[i], f) == forces[i];
      assert Sub(forces[j], f) == forces[j];
    }
  }
}
