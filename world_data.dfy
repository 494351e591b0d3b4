/**
 * The configuration object of the current program: flags, the time step, the box and
 * the table of pair interactions keyed by the ordered pair of species.
 */
module Configuration {
  import opened Vectors
  import opened Atoms
  import opened Interactions

  /** Pair-keyed interaction parameters; (a, b) and (b, a) are distinct keys. */
  type Table = map<(AtomType, AtomType), InteractionInfo>

  /** The table a fresh configuration holds: one entry, (Body, Body) with sigma 48, epsilon 1000. */
  function InitialInteractions(): (t: Table)
    ensures t.Keys == {(Body, Body)}
    ensures t[(Body, Body)].sigma == 48.0 && t[(Body, Body)].epsilon == 1000.0
    ensures Consistent(t[(Body, Body)])
  {
    map[(Body, Body) := MakeInteraction(48.0, 1000.0)]
  }

  class WorldData {
    var isGravityEnabled: bool
    var dt: real
    var interactions: Table
    /** The members below are used by the world but not declared with the others. */
    var boxSize: Vec2
    var isCollidingWithWalls: bool
    var isCollidingWithMovingWall: bool
    var iterationsPerImpulseMeasurements: int

    /** The declared defaults, plus the chosen defaults of the added members. */
    constructor()
      ensures isGravityEnabled && dt == 0.01
      ensures interactions == InitialInteractions()
      ensures boxSize == Zero
      ensures !isCollidingWithWalls && !isCollidingWithMovingWall
      ensures iterationsPerImpulseMeasurements == 500
    {
      isGravityEnabled := true;
      dt := 0.01;
      interactions := InitialInteractions();
      boxSize := Zero;
      isCollidingWithWalls := false;
      isCollidingWithMovingWall := false;
      iterationsPerImpulseMeasurements := 500;
    }

    /**
     * `getInteraction(first, second)`: the stored entry of the ordered pair. The lookup
     * dereferences the result of `find`, so the key must be present.
     */
    function GetInteraction(first: AtomType, second: AtomType): (info: InteractionInfo)
      reads this
      requires (first, second) in interactions
      ensures info == interactions[(first, second)]
    {
      interactions[(first, second)]
    }

    method SetIsGravityEnabled(enabled: bool)
      modifies this
      ensures isGravityEnabled == enabled
      ensures dt == old(dt) && interactions == old(interactions) && boxSize == old(boxSize)
      ensures isCollidingWithWalls == old(isCollidingWithWalls)
      ensures isCollidingWithMovingWall == old(isCollidingWithMovingWall)
      ensures iterationsPerImpulseMeasurements == old(iterationsPerImpulseMeasurements)
    {
      isGravityEnabled := enabled;
    }

    method SetTimeDelta(newDt: real)
      modifies this
      ensures dt == newDt
      ensures isGravityEnabled == old(isGravityEnabled) && interactions == old(interactions)
      ensures boxSize == old(boxSize)
      ensures isCollidingWithWalls == old(isCollidingWithWalls)
      ensures isCollidingWithMovingWall == old(isCollidingWithMovingWall)
      ensures iterationsPerImpulseMeasurements == old(iterationsPerImpulseMeasurements)
    {
      dt := newDt;
    }

    method SetBoxSize(size: Vec2)
      modifies this
      ensures boxSize == size
      ensures isGravityEnabled == old(isGravityEnabled) && dt == old(dt)
      ensures interactions == old(interactions)
      ensures isCollidingWithWalls == old(isCollidingWithWalls)
      ensures isCollidingWithMovingWall == old(isCollidingWithMovingWall)
      ensures iterationsPerImpulseMeasurements == old(iterationsPerImpulseMeasurements)
    {
      boxSize := size;
    }

    method SetIsCollidingWithWalls(colliding: bool)
      modifies this
      ensures isCollidingWithWalls == colliding
      ensures isGravityEnabled == old(isGravityEnabled) && dt == old(dt)
      ensures interactions == old(interactions) && boxSize == old(boxSize)
      ensures isCollidingWithMovingWall == old(isCollidingWithMovingWall)
      ensures iterationsPerImpulseMeasurements == old(iterationsPerImpulseMeasurements)
    {
      isCollidingWithWalls := colliding;
    }

    method SetIsCollidingWithMovingWall(colliding: bool)
      modifies this
      ensures isCollidingWithMovingWall == colliding
      ensures isGravityEnabled == old(isGravityEnabled) && dt == old(dt)
      ensures interactions == old(interactions) && boxSize == old(boxSize)
      ensures isCollidingWithWalls == old(isCollidingWithWalls)
      ensures iterationsPerImpulseMeasurements == old(iterationsPerImpulseMeasurements)
    {
      isCollidingWithMovingWall := colliding;
    }

    method SetIterationsPerImpulseMeasurements(iterations: int)
      modifies this
      ensures iterationsPerImpulseMeasurements == iterations
      ensures isGravityEnabled == old(isGravityEnabled) && dt == old(dt)
      ensures interactions == old(interactions) && boxSize == old(boxSize)
      ensures isCollidingWithWalls == old(isCollidingWithWalls)
      ensures isCollidingWithMovingWall == old(isCollidingWithMovingWall)
    {
      iterationsPerImpulseMeasurements := iterations;
    }
  }
}
