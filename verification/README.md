# Evolving cars over a noise terrain — a Dafny model

The repository is a p5.js / planck.js browser simulation. A population of
two-wheeled cars drives over a procedurally generated terrain. When every
car has stalled, the fittest half breeds the next generation by crossover
and mutation of their genomes. A smaller single-car demo (`2dworld.js`)
drives one car over the same kind of terrain.

This project models the simulation's bookkeeping, not its physics:

- the terrain heightfield: generation from a noise function, extension
  ahead of the leading car, height look-up by linear interpolation, and the
  ground as a list of edges (`heightfield.dfy`, `terrain.dfy`, `world2d.dfy`);
- the genome and its operators: random genomes, crossover and mutation
  (`genetics.dfy`);
- cars built from genomes, fitness and the leading car (`cars.dfy`);
- selection: drop null cars, sort by fitness highest first (stably), keep
  the first `numCars / 2` (`selection.dfy`);
- the simulation state and its steps: `setup`, the per-car loop of `draw`,
  `evolveNextGeneration`, the all-time distance and the terrain extension
  (`evolution.dfy`, class `Evolution.Simulation`).

Numbers are `real`. The physics engine's outputs are inputs: each car's
x-position and x-velocity after a world step. p5's `random()` is an explicit
draw in [0, 1). `random(lo, hi)`, `random(array)` and `constrain` are
written out in `Draws`. p5's `noise()` is a function parameter assumed to
range over [0, 1]. `Math.cos`/`Math.sin` in `generateRandomGenome` are a
parameter `direction` giving the unit vector of each chassis vertex.

`start`, the noise offset, advances differently in the two programs.
`generateMoreTerrain` in `Main-Project/script/main.js` adds the extension's
noise step (`frequency`), which grows with distance. The one in `2dworld.js`
adds the constant `inc`. The model follows each program.

## Model

| member | source | states |
|---|---|---|
| Draws.RandomBetween | Main-Project/script/main.js:281 | p5 `random(lo, hi)` lies between the two bounds whichever order they come in; below the larger one unless the bounds are equal |
| Draws.RandomIndex | Main-Project/script/main.js:493-494 | `random(array)` always picks a valid index |
| Draws.Constrain | Main-Project/script/main.js:560 | `constrain` lands in [lo, hi]; keeps a value already inside; sends values below to lo and above to hi |
| Heightfield.GetYPositionAtX | Main-Project/script/main.js:379-390 | the search loop returns the interpolated height `HeightAt` (first bracketing segment, else the last vertex's y) |
| Heightfield.HeightAtFirstBracket | 2dworld.js:137-144 | when segment k is the first with x_k <= x <= x_k+1, the height is the linear interpolation on segment k |
| Heightfield.HeightAtNoBracket | 2dworld.js:146 | when no segment brackets x, the height is the last vertex's y |
| Heightfield.HeightFromFirstBracket | 2dworld.js:137-144 | the search from any index before the first bracket finds that bracket |
| Heightfield.HeightFromNoBracket | 2dworld.js:137-146 | the search with no bracket ahead falls through to the last vertex |
| Heightfield.LerpBetween | 2dworld.js:139-143 | the interpolation between two vertices lies between their heights and meets each vertex's height at its x |
| Heightfield.CoveredIsBracketed | 2dworld.js:137-138 | on an increasing terrain, an x inside its span is bracketed by some segment |
| Heightfield.HeightAtWithinSegment | 2dworld.js:136-147 | on an increasing terrain, an x inside its span gets a height between the two vertices of its first bracketing segment |
| Heightfield.HeightAtVertex | 2dworld.js:136-147 | at a vertex's own x the look-up returns that vertex's y |
| Heightfield.Columns | 2dworld.js:60-65 | a generator pushes exactly one vertex per pixel column |
| Heightfield.ColumnsSnoc | 2dworld.js:60-65 | one more loop iteration pushes exactly the next column |
| Heightfield.ColumnsContiguous | 2dworld.js:60-65 | the pushed vertices sit at consecutive pixel columns, so x strictly increases |
| Heightfield.ColumnsHeights | 2dworld.js:61-62 | with noise in [0, 1], each pushed vertex's y lies in [(0.75 height - amplitude) / SCALE, 0.75 height / SCALE] |
| Heightfield.AppendColumnsIncreasing | 2dworld.js:56-68 | columns that start right of the last vertex keep the whole terrain strictly increasing in x |
| Heightfield.CreateGround | 2dworld.js:80-90 | the ground has length - 1 edges; edge i joins vertex i to vertex i + 1 (none for an empty terrain) |
| Heightfield.GroundOfExtension | Main-Project/script/main.js:138-141 | rebuilding the ground after an extension keeps the old edges, adds the edge that joins the old frontier to the first new vertex, then the new edges |
| Heightfield.GroundRunsRightwards | 2dworld.js:83-89 | on an increasing terrain every edge runs left to right, and each edge starts where the previous one ends |
| Terrain.InitialTerrainShape | Main-Project/script/main.js:233-244 | `generateTerrain` yields WIDTH vertices at x = i / SCALE, strictly increasing, each y in [0.25 height / SCALE, 0.75 height / SCALE] |
| Terrain.InitialTerrain | Main-Project/script/main.js:233-244 | `generateTerrain` pushes WIDTH vertices, vertex i at pixel column i |
| Terrain.MoreTerrainContiguous | Main-Project/script/main.js:210-228 | an extension appends WIDTH - 1 vertices at the pixel columns right after the frontier, and x stays strictly increasing across the join |
| Terrain.MoreTerrain | Main-Project/script/main.js:210-228 | `generateMoreTerrain` pushes WIDTH - 1 vertices at the pixel columns right after the frontier, one per column |
| Terrain.DifficultyMonotone | Main-Project/script/main.js:214-216 | amplitude and noise frequency never decrease with the frontier's distance |
| Terrain.MoreTerrainHeights | Main-Project/script/main.js:214-219 | an extension's vertices never rise above 0.75 height / SCALE and reach down by at most the amplitude |
| Terrain.NeedsMoreTerrainMonotone | Main-Project/script/main.js:138 | the extension test holds for a car further right whenever it holds for one nearer the start, and a longer terrain never asks where the shorter one did not |
| World2D.GeneratedInBand | 2dworld.js:61-62 | with noise in [0, 1] every vertex of either generator has y in [0.25 height / SCALE, 0.75 height / SCALE] |
| World2D.InitialTerrain | 2dworld.js:70-78 | the demo's `generateTerrain` pushes WIDTH vertices, vertex i at pixel column i |
| World2D.MoreTerrain | 2dworld.js:56-68 | the demo's `generateMoreTerrain` pushes WIDTH - 1 vertices at the pixel columns right after the frontier |
| World2D.InitialTerrainValid | 2dworld.js:70-78 | the initial terrain starts at x = 0, strictly increases and stays in the band |
| World2D.ExtensionKeepsInvariant | 2dworld.js:56-68 | an extension keeps the terrain invariant, leaves the existing vertices as they were and moves the frontier (WIDTH - 1) / SCALE forward |
| World2D.DriveForce | 2dworld.js:26-31 | the forward force is applied exactly when the x-velocity is below `maxVelocity`; otherwise nothing is applied |
| World2D.DemoWorld.constructor | 2dworld.js:11-20 | `setup`: one canvas width of terrain from `start` = 0 and its ground; the terrain invariant holds |
| World2D.DemoWorld.GenerateTerrain | 2dworld.js:70-78 | appends exactly the initial columns and advances `start` by exactly `inc` |
| World2D.DemoWorld.GenerateMoreTerrain | 2dworld.js:56-68 | appends the columns after the frontier and advances `start` by `inc`; the ground is untouched |
| World2D.DemoWorld.CreateGround | 2dworld.js:80-90 | the ground is rebuilt from all current vertices; the terrain is untouched |
| World2D.DemoWorld.ExtendIfNeeded | 2dworld.js:50-53 | extends exactly when the frontier's pixel x is below carScreenX + width; the invariant is kept, the columns after the frontier are appended, the frontier moves forward and `start` advances by `inc`; otherwise nothing changes |
| Genetics.GenerateRandomGenome | Main-Project/script/main.js:277-296 | always 6 vertices, 2 wheel sizes in [min(5, wheelRadius), max(5, wheelRadius)] / SCALE, 2 wheel offsets in [-0.5, 0.5] x [-0.2, 0.2] |
| Genetics.Pick | Main-Project/script/main.js:529-531 | per index, parent A's entry when the draw is below 0.5, parent B's otherwise; as long as parent A's list |
| Genetics.Crossover | Main-Project/script/main.js:518-541 | the child's three lists are as long as parent A's; each entry is A's or B's entry at the same index |
| Genetics.CrossoverSelf | Main-Project/script/main.js:518-541 | crossing a genome with itself gives it back |
| Genetics.CrossoverKeepsShape | Main-Project/script/main.js:518-541 | two 6/2/2 parents have a 6/2/2 child |
| Genetics.MutatePoint | Main-Project/script/main.js:549-554 | an unselected point is unchanged; a selected one moves by at most 0.05 per coordinate |
| Genetics.MutateSize | Main-Project/script/main.js:557-562 | an unselected size is unchanged and not clamped; a selected one ends in [0.05, 0.4] and either moves by at most 0.02 or lands on a bound of the clamp (it moves by at most 0.02 whenever it starts at least 0.02 inside the range) |
| Genetics.Mutate | Main-Project/script/main.js:547-571 | the three loops leave the genome `Mutated` describes |
| Genetics.MutatedBounds | Main-Project/script/main.js:547-571 | mutation keeps every list's length and moves each gene within its bound, leaving unselected genes unchanged |
| Genetics.MutatedAtRateZero | Main-Project/script/main.js:550 | at mutation rate 0 nothing changes |
| Genetics.MutatedAtRateOne | Main-Project/script/main.js:547-571 | at rate 1 every gene is perturbed: each chassis vertex and wheel position moves by its drawn offsets, each wheel size moves by its drawn offset and is clamped into [0.05, 0.4] |
| Cars.GenerateCarFromGenome | Main-Project/script/main.js:303-349 | null exactly when the chassis has 2 or fewer vertices; otherwise fitness 0, the same genome, and one wheel per wheel size, created at the spawn point plus its offset with that radius |
| Cars.StandardGenomeBuilds | Main-Project/script/main.js:313-316 | a 6/2/2 genome always builds a car with two wheels |
| Cars.Fitness | Main-Project/script/main.js:467-470 | `updateCarFitness`: the fitness in pixels converts back to exactly the chassis x-position |
| Cars.FitnessOrdersLikePosition | Main-Project/script/main.js:467-470 | fitness orders cars exactly as their x-positions do |
| Cars.LeaderFrom | Main-Project/script/main.js:193-195 | the `reduce` ends on a car no other car passes and that is strictly ahead of every earlier car |
| Cars.LeadingCar | Main-Project/script/main.js:192-196 | `findLeadingCar` returns the first car with the largest x |
| Cars.LeadingDistance | Main-Project/script/main.js:203-205 | the leading distance is some car's x in pixels and at least every car's |
| Selection.NonNull | Main-Project/script/main.js:480 | the filter keeps exactly the built cars; when every car was built it is the cars themselves, in their order |
| Selection.NonNullConcat | Main-Project/script/main.js:480 | the filter works car by car and keeps the order: filtering two stretches of the array gives the two filtered stretches one after the other |
| Selection.InsertSorted | Main-Project/script/main.js:481 | inserting into a highest-first list keeps it highest first |
| Selection.InsertPermutes | Main-Project/script/main.js:481 | insertion adds exactly the one car and loses none |
| Selection.InsertAtMost | Main-Project/script/main.js:481 | insertion brings in no car fitter than the bound its inputs respect |
| Selection.InsertionPoint | Main-Project/script/main.js:481 | the insertion point of a car is the first position whose car is not fitter than it (the end when every car is fitter) |
| Selection.InsertAtPoint | Main-Project/script/main.js:481 | insertion puts the car at its insertion point and keeps every other car in its order |
| Selection.SortSorted | Main-Project/script/main.js:481 | the sort is highest fitness first and a permutation of its input |
| Selection.WithFitnessConcat | Main-Project/script/main.js:481 | selecting the cars of one fitness distributes over concatenation |
| Selection.InsertStable | Main-Project/script/main.js:481 | an inserted car stays ahead of the later cars with its fitness |
| Selection.SortStable | Main-Project/script/main.js:481 | the sort is stable: cars with equal fitness keep their order |
| Selection.BreedingPool | Main-Project/script/main.js:480-482 | `bestCars` holds min(floor(numCars / 2), built cars) cars, highest fitness first |
| Selection.BreedingPoolEmpty | Main-Project/script/main.js:482-484 | the pool is empty exactly when numCars < 2 or no car was built |
| Selection.BreedingPoolMembers | Main-Project/script/main.js:480-482 | the pool holds built cars only, each at most as often as it was built |
| Selection.SortedSplit | Main-Project/script/main.js:481-482 | in a highest-first list no car after a cut beats a car before it |
| Selection.BreedingPoolIsBest | Main-Project/script/main.js:480-482 | no built car left out of the pool is fitter than a car in it |
| Evolution.ParentA | Main-Project/script/main.js:493 | parent A is a car of the breeding pool |
| Evolution.ParentB | Main-Project/script/main.js:494 | parent B is a car of the breeding pool |
| Evolution.ChildGenome | Main-Project/script/main.js:495-496 | the crossed and mutated genome of 6/2/2 parents is 6/2/2 |
| Evolution.Offspring | Main-Project/script/main.js:491-501 | on a 6/2/2 pool there is exactly one new car per slot, in slot order, each the car that slot builds |
| Evolution.OffspringSnoc | Main-Project/script/main.js:497-500 | one more slot appends its car when the build succeeds and nothing otherwise |
| Evolution.BreedOffspring | Main-Project/script/main.js:491-501 | the breeding loop builds exactly `Offspring` |
| Evolution.OffspringBuilt | Main-Project/script/main.js:497-499 | every offspring is a 6/2/2 car with fitness 0, created at the spawn point |
| Evolution.ChildInherits | Main-Project/script/main.js:493-497 | a slot's car is built, and each gene is within one mutation step of parent A's or parent B's (a wheel size is a parent's or in [0.05, 0.4]) |
| Evolution.RandomCars | Main-Project/script/main.js:266-271 | `generateRandomCars` builds one 6/2/2 car with fitness 0 per draw, none null |
| Evolution.PoolStandard | Main-Project/script/main.js:480-482 | a population of 6/2/2 cars has a 6/2/2 breeding pool |
| Evolution.SingleCarPool | Main-Project/script/main.js:482-488 | with every car built, the pool is empty exactly when there is a single car, so a lone car never evolves |
| Evolution.StalledConcat | Main-Project/script/main.js:98-104 | the stall test is per car: two groups of cars are stalled exactly when each group is |
| Evolution.UpdateAllTime | Main-Project/script/main.js:128-130 | the all-time distance rises to the leading distance when that is larger, and is one of the two |
| Evolution.RunningMax | Main-Project/script/main.js:128-130 | the all-time distance after a run of ticks is never below where it started |
| Evolution.RunningMaxSpec | Main-Project/script/main.js:124-130 | over a run the all-time distance never falls, is at least every observed leading distance, and is the start value or one of them |
| Evolution.RunningMaxConcat | Main-Project/script/main.js:124-130 | the all-time distance over two stretches of ticks is the second stretch's applied to the first's |
| Evolution.Simulation.constructor | Main-Project/script/main.js:37-71 | `setup`: counters reset, one canvas width of terrain and its ground, `numCars` random cars, the draw loop on; the invariant holds |
| Evolution.Simulation.GenerateTerrain | Main-Project/script/main.js:233-244 | appends exactly the initial columns and advances `start` by `inc` |
| Evolution.Simulation.GenerateMoreTerrain | Main-Project/script/main.js:210-228 | appends the columns after the frontier and advances `start` by the extension's noise step |
| Evolution.Simulation.CreateGround | Main-Project/script/main.js:249-260 | the ground is rebuilt from all current vertices |
| Evolution.Simulation.UpdateCars | Main-Project/script/main.js:98-104 | every car's fitness becomes its x in pixels and nothing else about it changes; `allCarsStopped` holds exactly when every x-velocity is at most 0.001 |
| Evolution.Simulation.EvolveNextGeneration | Main-Project/script/main.js:475-510 | `generation` goes up first; an empty pool stops the loop and leaves `cars` and the ground alone; otherwise `cars` becomes the offspring, all new 6/2/2 cars at the spawn point, and the ground is rebuilt |
| Evolution.Simulation.ExtendIfNeeded | Main-Project/script/main.js:138-141 | extends exactly when the leading car is within one canvas width of the frontier; the extension's columns are appended, `start` advances by its noise step and the frontier moves forward; otherwise nothing changes |
| Evolution.Simulation.TrackLeader | Main-Project/script/main.js:124-130 | the leading distance is the leading car's x in pixels and the all-time distance rises to it |
| Evolution.Simulation.StepCars | Main-Project/script/main.js:97-119 | fitness is updated; on a stall a single car stops the loop, and more cars are replaced by the offspring of the fittest half of the cars just scored, placed at the spawn point; otherwise only fitness changes |
| Evolution.Simulation.FollowLeader | Main-Project/script/main.js:122-141 | the leading distance is the leading car's x in pixels, the all-time distance rises to it, and the terrain is extended (and `start` advanced) exactly when that distance is within one canvas width of the frontier |
| Evolution.Simulation.Draw | Main-Project/script/main.js:92-141 | a paused tick changes nothing; otherwise `generation` goes up exactly on a stall; without a stall the cars are the scored cars and `looping` is kept; a single-car stall stops the loop; a stall of more cars breeds the new cars from the fittest half of this tick's scored cars; the all-time distance rises to the leading distance; the terrain is extended by `MoreTerrain` exactly when the leading car is within one canvas width of the frontier, and `start` advances with it |

## Left out

- Rendering and the page: `drawTerrain`, `drawBody`, `drawCar`, `drawCircle`, `drawPolygon`, the generation and car-parameter displays, canvas centring and resizing, the DOM reads in `setup` (their values are constructor parameters) and the start and pause buttons. None of them computes anything the model keeps.
- The physics engine: `world.step`, bodies, fixtures, joints, the forward force and wheel spin applied to each car in `draw`, and the demo car of `2dworld.js` (`createCar`, `createWheel`). A car records only where its chassis and wheels were created. Positions and velocities after a step are inputs.
- p5's `random()` and `noise()` are parameters (explicit draws and a noise function), not implementations. Which draw feeds which gene is fixed by the draw records, not by the order of calls.
- The trigonometry of `generateRandomGenome` is the parameter `direction`. The model states the chassis vertices' count only.
- Floating point: all numbers are exact reals, so rounding (for example in `x / SCALE * SCALE`) is not modelled.
- Leaked engine resources: old car bodies are never destroyed, a ground body is created on every rebuild without destroying the previous one, and a chassis body is created before the validity check. The model keeps only the most recent ground as a list of edges.
- A genome with no `chassisVertices` at all: a genome always has a (possibly short) vertex list here. The "2 or fewer vertices" case is modelled.
- Object identity: genomes and vectors are values. `mutate` changing the child's own `Vec2`s in place is modelled as returning the changed genome, and the crossover's fresh copies are implicit in value semantics.
- `maxGenerations`, `maxVelocity` of `main.js` and `ACCELERATION_FORCE` are read or declared but drive nothing the model keeps. The demo's `maxVelocity` is modelled.
- `Mini-Projects` sketches: they only issue drawing calls.
- `Evolution.Offspring`: stated for breeding pools of 6/2/2 genomes, the only genomes the program creates. The dropping of a failed build is modelled, but it cannot happen on such pools, so the general "at most numCars" bound is not stated separately.
- `Cars.GenerateCarFromGenome`: a genome with more than 2 chassis vertices and fewer wheel positions than wheel sizes is excluded by its precondition, because the source throws on it (`genome.wheelPositions[i]` is undefined and its `x` is read). No generated, crossed-over or mutated genome has that shape.
- `Evolution.Simulation.constructor`: requires at least one car. With `numCars` 0 the source's `findLeadingCar` reads a missing car in the next `draw`.
