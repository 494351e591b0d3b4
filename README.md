# Lennard-Jones particle simulator: a verified model of the simulation engine

The simulator moves a two-dimensional set of atoms that attract and repel one another
through the Lennard-Jones potential. Atoms are held in a rectangular box by soft repulsive
walls, are optionally pulled down by gravity, and optionally push against a heavy movable
top wall (the piston). Each simulation step does the following:

- computes all forces in one pass, with pair forces over i < j and then the walls and gravity;
- advances positions, speeds and the piston with the classical fourth-order Runge–Kutta
  method;
- removes every atom that has left the box;
- updates a running wall impulse, from which a pressure is sampled every few hundred steps.

Two versions of the world class exist: the current one (`src/World.h`) and an earlier one
(`World.h`). The earlier one builds its own atom grid, has a symmetric interaction table,
always applies walls and gravity, and has a fixed 500-step pressure window.

The model uses exact arithmetic: `double` becomes `real`, `pow` becomes `Powers.Pow`, and
`M_PI` is the decimal value of the double. The modules follow the program's structure:

| file | module | models |
|---|---|---|
| powers.dfy | Powers | integer powers and squares over the reals |
| vectors.dfy | Vectors | `sf::Vector2d` arithmetic and sums of force vectors |
| atoms.dfy | Atoms | the `Atom` record of both versions, its absolute speed and kinetic energy |
| interactions.dfy | Interactions | `InteractionInfo` and its derived constants |
| lennard_jones.dfy | LennardJones | the force, wall-force and potential kernels |
| world_data.dfy | Configuration | the `WorldData` configuration object (a class) |
| force_pass.dfy | ForcePass | `getForcesForInterval` and `getForces`, in place on a force array |
| boundary.dfy | Boundary | `isOutside` and the order-keeping removal of escaped atoms |
| observables.dfy | Observables | temperature, density and total energy |
| integration.dfy | Integration | the Runge–Kutta step of the world, including the piston |
| world.dfy | Simulation | the current `World` class |
| legacy_world.dfy | Legacy | the earlier `World` class, its grid and its interaction table |
| runge_kutta.dfy | RungeKutta | the generic `RungeKutta<T>` helper, scalar and in place |

Code that changes state in place keeps that form in the model:

- the force pass accumulates into an `array`;
- the worlds and `WorldData` are classes whose methods update their fields;
- the Runge–Kutta helper shifts an `array` in place;
- the grid builder and the removal loop are loops.

Each such method is proved against a specification function. The properties the program
relies on are proved as lemmas about those functions:

- the work slices partition `[0, N)`;
- every pair is visited exactly once;
- the pair forces cancel;
- positions shifted between stages are restored before the final update;
- the boundary filter's postcondition;
- the pressure sampling schedule.

The current version looks up the interaction of the ordered pair `(first, second)` and fails
on a missing key: `Configuration.WorldData.GetInteraction` is order-sensitive and requires the
key to be present. The earlier version stores both orders of every mixed pair
(`Legacy.EarlyTableSymmetric`).

Both versions update the piston as the code is written, with height and speed taking each
other's increment (`Integration.PistonAdvanceAsWritten`); "## Findings" records this, and the
intended update, `Integration.PistonAdvance`, is stated and proved beside it.

## Model

| member | source | states |
|---|---|---|
| Atoms.DefaultAtom | src/Atom.h:17-26 | a default-constructed atom is at rest at the origin, with mass 1 and type BODY |
| Atoms.EarlyDefaultAtom | Atom.h:17-28 | the earlier default atom is at rest at the origin, with mass 1 and type WATER |
| Atoms.NewAtom | Atom.h:29-30 | the three-argument constructor keeps the given position, mass and type and leaves the speed at its default, zero |
| Atoms.SpeedSqr | src/Atom.h:28-30 | the quantity under the square root is never negative, and is zero exactly when the velocity is the zero vector |
| Atoms.AbsoluteSpeedZeroIff | src/Atom.h:28-30 | the absolute speed is zero if and only if the velocity is zero (also Atom.h:32-34) |
| Atoms.AbsoluteSpeedUnique | src/Atom.h:28-30 | the absolute speed is one well-defined value: two non-negative roots of the same squared speed coincide |
| Atoms.KineticEnergy | src/Atom.h:32-34 | kinetic energy is non-negative whenever the mass is (also Atom.h:36-38) |
| Atoms.KineticEnergyAsWritten | src/Atom.h:28-34 | mass times the squared absolute speed over 2 equals mass·(vx² + vy²)/2: the square root is squared away |
| Atoms.KineticEnergyAtRest | src/Atom.h:32-34 | an atom whose absolute speed is zero has zero kinetic energy |
| Atoms.KineticEnergyIgnoresPlace | src/Atom.h:32-34 | kinetic energy depends on neither the position nor the type of the atom |
| Interactions.MakeInteraction | src/Helpers/InteractionInfo.h:9-12 | SIGMA and EPSILON keep the constructor's arguments unchanged, and the three derived constants are consistent with them |
| Interactions.DerivedConstants | src/Helpers/InteractionInfo.h:9-20 | SIGMA_SQR and SIGMA_SIXTH_POWER are non-negative; σ⁶ = (σ²)³; COEFF = −24·EPSILON·SIGMA_SIXTH_POWER; COEFF is negative when ε > 0 and σ ≠ 0 |
| Interactions.DefaultIsZeroInteraction | src/Helpers/InteractionInfo.h:7-20 | the default value, with all five fields zero, is the value constructed from σ = ε = 0, and is consistent |
| Configuration.InitialInteractions | src/Helpers/WorldData.h:14-16 | the initial table has exactly one key, (BODY, BODY), with σ = 48 and ε = 1000 |
| Configuration.WorldData.constructor | src/Helpers/WorldData.h:11-16 | gravity is on, dt is 0.01 and the table is the initial one; the added fields start with a zero box, both collision flags off and a 500-step window |
| Configuration.WorldData.GetInteraction | src/Helpers/WorldData.h:30-32 | returns the entry stored under the ordered key (first, second); that key must be present |
| Configuration.WorldData.SetIsGravityEnabled | src/Helpers/WorldData.h:34-36 | reading the gravity flag back gives the value set; every other field, the table included, is unchanged |
| Configuration.WorldData.SetTimeDelta | src/Helpers/WorldData.h:38-40 | reading dt back gives the value set; every other field, the table included, is unchanged |
| Configuration.WorldData.SetBoxSize | src/World.h:91-98 | the box size, which the current world reads for its geometry, is set; no other field changes |
| Configuration.WorldData.SetIsCollidingWithWalls | src/main.cpp:16 | the wall-collision flag is set; no other field changes |
| Configuration.WorldData.SetIsCollidingWithMovingWall | src/main.cpp:15 | the moving-wall flag is set; no other field changes |
| Configuration.WorldData.SetIterationsPerImpulseMeasurements | src/World.h:307-308 | the pressure sampling window is set; no other field changes |
| LennardJones.Force | src/Helpers/LennardJones.h:10-15 | the force factor is exactly zero once the squared distance reaches the cutoff 6.25·σ² |
| LennardJones.ForceSign | src/Helpers/LennardJones.h:13-14 | below the cutoff, with COEFF < 0, the force is repulsive iff d³ < 2σ⁶, zero iff d³ = 2σ⁶, and attractive iff d³ > 2σ⁶ (d the squared distance) |
| LennardJones.PairForceAntisymmetric | src/World.h:149-152 | the force vector for the pair (j, i) is the negation of the one for (i, j), because the factor depends only on the squared distance |
| LennardJones.WallForceNonNegative | src/Helpers/LennardJones.h:17-19 | the wall force is non-negative for a positive distance and ε ≥ 0 |
| LennardJones.WallForceDecreasing | src/Helpers/LennardJones.h:17-19 | for ε ≥ 0 the wall force never grows as the distance to the wall grows |
| LennardJones.WallStrengthNonNegative | src/Helpers/LennardJones.h:17-19 | the wall force is a non-negative strength 63·π·ε·(σ⁶)²/256 divided by distance¹¹ |
| LennardJones.PotentialFromSqrForm | src/Helpers/LennardJones.h:21-23 | the potential, as a function of the squared distance d, is 4ε(σ¹²/d⁶ − σ⁶/d³) |
| LennardJones.PotentialFromSqrAgrees | src/World.h:39-45 | the potential computed from the squared distance equals getPotential at the distance whose square it is, so the square root is not needed |
| LennardJones.PotentialAtSigma | src/Helpers/LennardJones.h:21-23 | the potential is zero at distance σ |
| LennardJones.ZeroInteraction | src/Helpers/LennardJones.h:10-23 | with the all-zero default parameters the force is zero for every squared distance ≥ 0, and the wall force and potential are zero at every non-zero distance |
| LennardJones.NoWellDepth | src/Helpers/LennardJones.h:17-23 | with ε = 0 the wall force and the potential vanish |
| Vectors.NormSqrIsPow | src/World.h:149-150 | the squared distance of the model is the sum of the two pow(_, 2) terms |
| Vectors.NormSqrFacts | src/World.h:149-150 | a squared distance is non-negative, and is zero exactly when the two positions coincide |
| Vectors.SumOfOppositeUpdates | src/World.h:154-155 | adding f to one entry and subtracting f from another leaves the sum of all entries unchanged |
| ForcePass.ForcesForInterval | src/World.h:135-194 | the in-place loops leave the force array, the impulse and the piston force equal to the interval's specification, and visit exactly the pairs (i, j) with begin ≤ i < end and i < j < N, in loop order |
| ForcePass.PairForces | src/World.h:141-156 | the inner loop over j > i applies exactly the row's pair updates and visits row i |
| ForcePass.WallForces | src/World.h:158-184 | the four wall forces are applied to the atom's force and added to the impulse; the bottom one is also added to the piston force |
| ForcePass.GravityForce | src/World.h:186-192 | gravity subtracts 0.5·mass from the atom's y force and 0.5·piston mass from the piston force |
| ForcePass.Forces | src/World.h:196-214 | running the slices one after another gives the same array, impulse and piston force as one pass over [0, N), and visits every pair in order |
| ForcePass.SlicesContiguous | src/World.h:199-209 | for T ≥ 1 workers the first slice starts at 0, the last ends at N, each slice ends where the next begins, and every slice lies within [0, N] |
| ForcePass.SlicesCover | src/World.h:199-209 | every index below N lies in exactly one slice |
| ForcePass.SlicesOrdered | src/World.h:199-209 | an earlier slice ends no later than a later slice begins: slices are disjoint |
| ForcePass.IntervalConcat | src/World.h:203-209 | passing over [a, b) and then [b, e) has the same effect as passing over [a, e) |
| ForcePass.VisitsConcat | src/World.h:139-141 | the pairs visited over [a, b) followed by those over [b, e) are the pairs visited over [a, e) |
| ForcePass.VisitsExactlyOnce | src/World.h:139-141 | each pair a < b < N is visited exactly once if begin ≤ a < end, and never otherwise |
| ForcePass.RowCount | src/World.h:141 | the inner loop of row i visits the pair (i, b) once for each i < b < N and no other pair |
| ForcePass.PairStepKeepsSum | src/World.h:152-155 | one pair update leaves the sum of all forces unchanged |
| ForcePass.InnerKeepsSum | src/World.h:141-156 | the whole inner loop leaves the sum of all forces unchanged |
| ForcePass.PairStepUnskipped | src/World.h:149-155 | a pair that is not skipped adds the same force vector f to atom i that it subtracts from atom j |
| ForcePass.SkipIsSound | src/World.h:144-147 | the bounding-box skip only drops pairs at or beyond the cutoff, where the force is zero anyway |
| ForcePass.AtomStepTotals | src/World.h:139-193 | after one atom's turn, the sum of all forces grows by exactly that atom's wall and gravity force; the impulse grows by its wall impulse and the piston force by its share |
| ForcePass.IntervalTotals | src/World.h:135-194 | after an interval, the total force, impulse and piston force grow by the sum of the external contributions only: the pair forces cancel |
| ForcePass.IntervalForceTotal | src/World.h:135-194 | the total force after an interval is the initial total plus the interval's wall and gravity forces |
| ForcePass.IntervalImpulseTotal | src/World.h:158-184 | the impulse after an interval is the initial impulse plus the interval's wall impulses |
| ForcePass.IntervalPistonTotal | src/World.h:179-192 | the piston force after an interval is the initial one plus the interval's bottom-wall and piston-gravity contributions |
| Boundary.KeepInside | src/World.h:315-319 | the filter never adds atoms |
| Boundary.KeepInsideSound | src/World.h:315-340 | every atom that survives the filter was in the input and is not outside the box |
| Boundary.KeepInsideComplete | src/World.h:315-340 | every input atom that is not outside the box survives the filter |
| Boundary.KeepInsideInside | src/World.h:315-340 | after the filter no atom has x ≤ 0, x ≥ width, y ≤ 0 or y ≥ height; an atom on the boundary is removed |
| Boundary.AllInsideEverywhere | src/World.h:332-340 | "every atom is inside" holds if and only if no index holds an outside atom |
| Boundary.KeepInsideAppend | src/World.h:315-319 | filtering a concatenation is the concatenation of the filtered parts, so survivors keep their relative order |
| Boundary.KeepInsideIdempotent | src/World.h:315-319 | filtering a second time removes nothing more |
| Boundary.KeepInsideAll | src/World.h:315-319 | the filter leaves the vector unchanged if and only if no atom is outside |
| Boundary.EraseOutside | World.h:364-370 | the iterator erase loop leaves exactly the filtered vector, and every remaining atom is inside |
| Observables.TotalKineticEnergy | src/World.h:59-63 | the accumulating loop yields the sum of the atoms' kinetic energies |
| Observables.TotalMass | src/World.h:83-86 | the accumulating loop yields the sum of the atoms' masses |
| Observables.KineticEnergySumNonNegative | src/World.h:58-66 | with non-negative masses the total kinetic energy is non-negative |
| Observables.KineticEnergySumAppend | World.h:75-106 | appending an atom adds its kinetic energy and its mass to the two totals |
| Observables.KineticEnergySumUniform | src/World.h:58-66 | n atoms with the same kinetic energy e have total n·e |
| Observables.TotalsIgnorePlace | src/World.h:58-89 | the two totals depend only on the speeds and masses, not on positions or types |
| Observables.MassSumPositive | src/World.h:82-89 | a non-empty vector of positive masses has a positive total mass |
| Observables.TemperatureNonNegative | src/World.h:58-66 | the temperature of a non-empty vector with non-negative masses is non-negative |
| Observables.TemperatureUniform | src/World.h:58-66 | if every atom has kinetic energy e, the temperature is e: it is the mean kinetic energy |
| Observables.DensityPositive | src/World.h:82-89 | positive masses in a positive area give a positive density |
| Observables.ComputeTotalEnergy | src/World.h:28-50 | the nested loops yield the total kinetic energy plus the potential summed over all pairs i < j |
| Observables.TranslatedGeometry | src/World.h:37-47 | moving every atom by the same vector keeps every pairwise difference |
| Observables.SameGeometryDefined | src/World.h:37-47 | if the energy is defined for one configuration, it is defined for any configuration with the same pairwise differences and types |
| Observables.PotentialUpToSameGeometry | src/World.h:37-47 | the pair potential sum depends only on the pairwise differences and the types |
| Observables.TotalEnergyTranslated | src/World.h:28-50 | the total energy does not change when the whole configuration is translated |
| Observables.LoneAtomEnergy | src/World.h:28-50 | a single atom's total energy is its kinetic energy |
| Observables.PairAtSigmaEnergy | src/World.h:28-50 | two atoms at distance σ have total energy equal to their kinetic energies |
| Integration.Moved | src/World.h:248-250 | shifting positions keeps every atom's speed, mass and type |
| Integration.Final | src/World.h:298-303 | the final update keeps every atom's mass and type |
| Integration.RatesAndMoves | src/World.h:237-240 | each force becomes the speed change dt/mass·F, and each move is the speed, plus the lead of the previous stage's rate, times dt |
| Integration.RunStage | src/World.h:234-244 | one stage (force pass, then rates and moves) yields the stage's specification values |
| Integration.Shift | src/World.h:248-250 | the in-place loop moves every atom by its half move and changes nothing else |
| Integration.Reshift | src/World.h:264-267 | taking back the previous stage's move and applying the next one gives the original positions moved by the next move only: the shifted positions are restored exactly |
| Integration.Finish | src/World.h:298-303 | taking back m3 and adding the weighted sum gives, from the original configuration, positions old + (m1+2m2+2m3+m4)/6 and speeds old + (k1+2k2+2k3+k4)/6 |
| Integration.RungeKuttaStep | src/World.h:216-305 | the step evaluates forces at old, old + m1/2, old + m2/2 and old + m3, in that order, and returns the step's specification: the atoms, the impulse and the piston increments |
| Integration.WeightedConstantRate | src/World.h:298-303 | with a constant rate k, the 1-2-2-1 weighting of the moves gives dt·v + dt/2·k, and the weighting of the rates gives k |
| Integration.StepUnderUniformForces | src/World.h:216-303 | when all four force passes give the same forces g, each atom moves by dt·v + dt/2·(dt/m)·g and its speed changes by (dt/m)·g: exact constant-acceleration motion |
| Integration.LoneStageForces | src/World.h:135-194 | without walls the only force on a lone atom is gravity, −0.5·mass in y, when gravity is on, and there is none when it is off |
| Integration.LoneAtomStep | src/World.h:216-303 | a lone atom in a box without walls is uniformly accelerated by its weight alone (none without gravity): it moves by dt·v + dt/2·k and its speed grows by k, with k = (dt/m)·weight |
| Integration.LoneAtomFalls | src/World.h:216-303 | a lone atom under gravity falls exactly: y drops by dt·vy − dt²/4, vy drops by dt/2, and x moves uniformly |
| Integration.LoneAtomCoasts | src/World.h:216-303 | without gravity and walls a lone atom moves in a straight line at constant speed |
| Integration.PistonUnderConstantForce | src/World.h:242-295 | under a constant piston force f the four stages give speed change f·dt/M and displacement v·dt + f·(dt/M)·dt/2 |
| Integration.PistonAdvanceIsExact | src/World.h:312-313 | the corrected update moves the piston by the exact constant-acceleration displacement and changes its speed by f·dt/M |
| Integration.PistonAsWrittenCounterexample | src/World.h:312-313 | with speed 1, no force, dt = 1 and mass 1, the update as written leaves y unchanged and doubles the speed, while the corrected one moves y by 1 and keeps speed 1 |
| RungeKutta.Integrate | src/Helpers/RungeKutta.h:11-18 | a step of size 0 returns yn |
| RungeKutta.IntegrateZeroField | src/Helpers/RungeKutta.h:11-17 | for f ≡ 0 the result is yn |
| RungeKutta.IntegrateConstantField | src/Helpers/RungeKutta.h:11-17 | for f ≡ c the result is yn + h·c |
| RungeKutta.IntegrateQuadrature | src/Helpers/RungeKutta.h:11-17 | when f depends on x only, the step is Simpson's rule over [xn, xn + h] |
| RungeKutta.IntegrateLinearField | src/Helpers/RungeKutta.h:11-17 | for y' = λy the step multiplies yn by 1 + z + z²/2 + z³/6 + z⁴/24 with z = hλ, the Taylor polynomial of exp(z) |
| RungeKutta.Step | src/Helpers/RungeKutta.h:20-64 | the vector step keeps the length of yn |
| RungeKutta.StepZeroField | src/Helpers/RungeKutta.h:20-64 | a zero rate function leaves yn unchanged |
| RungeKutta.StepConstantField | src/Helpers/RungeKutta.h:20-64 | a constant rate c adds h·c to every component |
| RungeKutta.StepLinearField | src/Helpers/RungeKutta.h:20-64 | for a componentwise linear rate λ·y each component is multiplied by the degree-4 Taylor polynomial of exp(hλ) |
| RungeKutta.StepAgreesWithIntegrate | src/Helpers/RungeKutta.h:11-64 | for a one-element state and a rate function that ignores x, the in-place vector step and the scalar step give the same value |
| RungeKutta.Integrator.constructor | src/Helpers/RungeKutta.h:9 | the four stage buffers start empty |
| RungeKutta.Integrator.Integrate | src/Helpers/RungeKutta.h:20-64 | the buffers are resized to the length of yn and hold the rates at yn, yn + h/2·k1, yn + h/2·k2 and yn + h·k3, in that order; yn ends as the vector step of its old value |
| RungeKutta.Integrator.Perturb | src/Helpers/RungeKutta.h:40-42 | the loop adds c·b to every component of yn |
| RungeKutta.Integrator.Shift | src/Helpers/RungeKutta.h:46-56 | taking back one perturbation and applying the next gives the old yn plus the next perturbation only |
| RungeKutta.Integrator.Finish | src/Helpers/RungeKutta.h:60-64 | taking back h·k3 and adding h/6·(k1 + 2k2 + 2k3 + k4) gives the combined step from the old yn |
| Simulation.Min | src/World.h:93 | the result is one of the two arguments and is at most both |
| Simulation.SamplingSchedule | src/World.h:307 | iteration 0 and every multiple of the window are sampled; no iteration strictly between two multiples is |
| Simulation.SamplePressure | src/World.h:305-310 | the accumulation and sampling code yields the gauge's specification: the new pressure and impulse |
| Simulation.MeasureBalance | src/World.h:305-310 | on a sampled step with non-zero duration and perimeter, the pressure is finite and pressure × duration × perimeter equals the accumulated impulse; with a zero divisor the pressure is not finite; either way the accumulator is reset to 0; on an unsampled step the pressure is kept and the impulse accumulates |
| Simulation.MeasurePositive | src/World.h:307-310 | a positive accumulated impulse in a box of positive perimeter, with positive dt and window, gives a finite positive pressure |
| Simulation.Height | src/World.h:91-95 | the box height never exceeds the box's y size; with the moving wall it is the smaller of box y and piston y, otherwise it is box y |
| Simulation.PerimeterBoundsArea | src/World.h:78-99 | for any rectangle the squared perimeter is at least 16 times the area |
| Simulation.World.constructor | src/World.h:16-18 | the atoms are exactly those the generator produced; the configuration has its defaults (dt 0.01, gravity on, the initial table, a zero box, both collision flags off, window 500); pressure, impulse, iteration, piston position and speed are 0, and the piston mass is 10 |
| Simulation.World.GeometryBounds | src/World.h:78-99 | in a box of positive size, area and perimeter are positive and the squared perimeter is at least 16 times the area |
| Simulation.World.GetTemperature | src/World.h:58-66 | the result is the mean kinetic energy of the atoms |
| Simulation.World.GetDensity | src/World.h:82-89 | the result is the total mass divided by the area |
| Simulation.World.GetTotalEnergy | src/World.h:28-50 | the result is the kinetic energy plus the pair potential of all atoms, using the configured table |
| Simulation.World.SetMovingWallMass | src/World.h:109-111 | sets the piston mass and changes nothing else |
| Simulation.World.Integrate | src/World.h:216-330 | the step advances the atoms by the Runge–Kutta specification, updates pressure and impulse by the sampling rule over the old perimeter (a non-finite pressure when a divisor is zero), and moves the piston by the update as written, y by the weighted speed changes and the speed by the weighted displacements; with walls on, escaped atoms are removed in order and all others remain inside |
| Simulation.World.MakeSimulationStep | src/World.h:52-56 | as Integrate, including the piston update as written and the non-finite pressure on a zero divisor, with the iteration counter read before it is incremented by one |
| Legacy.EarlyTable | World.h:176-187 | the earlier table holds every ordered pair of types except (WALL, WALL) |
| Legacy.Completed | World.h:196-237 | after lookups with operator[], which inserts missing keys, the table has an entry for every pair of types |
| Legacy.CompletedAgrees | World.h:196-237 | operator[] yields the stored entry for a present key and the all-zero default for a missing one |
| Legacy.EarlyTableSymmetric | World.h:176-187 | the lookup is symmetric in the two types |
| Legacy.EarlyTableEntries | World.h:176-187 | the lookups give the listed parameters (BODY 1/100, WATER 2.725/4.9115, mixed 2/0.1, walls 10/5) and the zero default for (WALL, WALL) |
| Legacy.WaterGrid | World.h:34-42 | the water grid has 2500 atoms |
| Legacy.BodyGrid | World.h:44-52 | the body grid has 400 atoms |
| Legacy.GridLayout | World.h:34-52 | the 2900 atoms are 2500 WATER atoms on the staggered 100×25 grid, then 400 BODY atoms on the staggered 20×20 grid, all at rest with mass 1 |
| Legacy.GridInside | World.h:34-52 | every grid atom lies strictly inside any box wider than 298.625 and taller than 271.85 |
| Legacy.BuildGrids | World.h:34-52 | the nested push loops build exactly the water grid followed by the body grid |
| Legacy.World.constructor | World.h:31-52 | the world holds the 2900 grid atoms, keeps dt and the box size, sets piston y to the box height and piston mass to 10, and starts with the earlier table |
| Legacy.World.GetTemperature | World.h:75-83 | the result is the mean kinetic energy of the atoms |
| Legacy.World.GetDensity | World.h:99-106 | the result is the total mass divided by the area |
| Legacy.World.SetBoxSize | World.h:113-115 | sets the box size and changes nothing else |
| Legacy.World.AddAtom | World.h:121-123 | appends exactly the given atom at the end and leaves the others unchanged |
| Legacy.World.SetMovingWallMass | World.h:141-143 | sets the piston mass and changes nothing else |
| Legacy.World.CollideWithMovingWall | World.h:149-151 | sets the moving-wall flag and changes nothing else |
| Legacy.World.Advance | World.h:267-362 | the Runge–Kutta part of the earlier step, with walls and gravity always on and the fixed 500-step window: atoms, pressure and impulse follow the specifications (a non-finite pressure when a divisor is zero), and the piston takes the update as written, y by the weighted speed changes and the speed by the weighted displacements |
| Legacy.World.EraseEscaped | World.h:364-370 | the removal loop, which always runs, leaves exactly the atoms inside the box, in order |
| Legacy.World.Integrate | World.h:267-381 | the earlier step: the Runge–Kutta update with the piston update as written, followed by the unconditional removal; afterwards every atom is inside |
| Legacy.World.MakeSimulationStep | World.h:69-73 | as Integrate, including the piston update as written and the non-finite pressure on a zero divisor, with the iteration counter read before it is incremented by one |

## Left out

- Threads: `getForces` starts one thread per slice, and their writes to `forces[j]`, the impulse and the piston force race. The model runs the slices one after another and requires at least one worker, because zero workers divides by zero.
- Floating point: rounding is not modelled, and NaN and infinity only as the stored pressure. A sampled step whose duration (dt times the window) or perimeter is zero stores `Simulation.NonFinite` and goes on; no step is forbidden for it. Any other division by zero in the source (zero mass, zero piston mass, coinciding atoms, an atom on a wall line, an empty atom vector, a zero area) becomes a precondition. `ForcePass.Defined`, `Integration.StepDefined` and `Observables.EnergyDefined` collect these.
- Simulation.World.GetTemperature: requires a non-empty atom vector; with none the source divides by zero. The same holds for `Legacy.World.GetTemperature`.
- Simulation.World.GetDensity: requires a non-zero area for the same reason. The same holds for `Legacy.World.GetDensity`.
- Simulation.World.GetTotalEnergy: requires every pair's key to be present and no two atoms to coincide. A missing key dereferences the end of the map, and a zero distance divides by zero.
- Simulation.World.Integrate: requires a non-zero sampling window, because `%` by zero is undefined in the source. The same holds for `Simulation.World.MakeSimulationStep`. It does not require a non-zero duration or perimeter: those give a non-finite pressure.
- `sqrt`: the absolute speed is characterised as the non-negative root (`Atoms.IsAbsoluteSpeed`) rather than computed. The total energy is computed from the squared distance, which `LennardJones.PotentialFromSqrAgrees` shows equivalent.
- `increaseTemperature` (World.h:108-111) rescales speeds by a square root of a temperature it recomputes mid-loop from partly rescaled speeds. It is not modelled.
- `getAverageSpeed` (src/World.h:68-76, World.h:85-93) is an average of square roots. It is not modelled.
- Plain getters that only return a field (`getAtoms`, `getPressure`, `getMovingWallPosition`, `getMovingWallMass`, `getBoxSize`, `getTimeDelta`, `getInteractions`, `isGravityEnabled`) are fields of the model's classes.
- The `WorldData` members that `src/World.h` and `src/main.cpp` use but `WorldData.h` does not declare are added as plain fields with setters. These are the box size, both collision flags and the sampling window. Their defaults (zero box, flags off, window 500) are assumptions.
- The atom generator of the current world's constructor is a parameter: the model takes the generated vector.
- `RungeKutta<T>` is modelled with `T` = `real`. The callback `function(yn, k)` is a function from the state and an index to a rate.
- Both worlds' removal, the current world's `erase_if` and the earlier world's iterator loop, is the loop method `Boundary.EraseOutside` over a sequence value, which the world then assigns to its atom field. Its result equals the filter `Boundary.KeepInside`. The in-place shrinking of the one vector object is not modelled.
- The earlier world's `integrate` is split into `Advance`, the Runge–Kutta part, and `EraseEscaped`, the removal loop. `Integrate` calls both.
- The iteration counter is an unbounded integer; the source's `int` overflow after 2³¹ steps is not modelled.
- Rendering, logging, the OpenCL experiment and the driver programs are not part of this model.

## Findings

| source | as written | input that shows it | evidently intended | confidence | as-written member | corrected member |
|---|---|---|---|---|---|---|
| src/World.h:312-313 (also World.h:361-362) | the piston's y grows by the weighted force terms mw1x, which are speed changes, and its speed grows by the weighted move terms mw2x, which are displacements | piston speed 1, no force, dt 1, mass 1: y stays put and the speed becomes 2 | y grows by the weighted displacements mw2x and the speed by the weighted speed changes mw1x, as for the atoms at src/World.h:301-302 | not executed | Integration.PistonAsWrittenCounterexample | Integration.PistonAdvanceIsExact |
