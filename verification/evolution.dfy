/**
 * The simulation state of Main-Project/script/main.js and the steps that
 * change it: `setup`, the terrain generators, the per-car loop of `draw`,
 * `evolveNextGeneration`, and the rest of a `draw` tick (leading car,
 * all-time distance, terrain extension). Physics bodies are not modelled:
 * the cars' x-positions and x-velocities after `world.step` are inputs of
 * a tick, and every `random()` is an explicit draw.
 */
module Evolution {
  import opened Vectors
  import opened Draws
  import opened Options
  import opened Heightfield
  import opened Terrain
  import opened Genetics
  import opened Cars
  import opened Selection

  /** A car counts as stopped when its x-velocity is at most this. */
  const STALL_SPEED: real := 0.001

  /** `allCarsStopped`: no car moves right faster than STALL_SPEED. */
  predicate Stalled(velocities: seq<real>) {
    forall i :: 0 <= i < |velocities| ==> velocities[i] <= STALL_SPEED
  }

  /** The stall test runs car by car: two groups are stalled exactly when each of them is. */
  lemma StalledConcat(a: seq<real>, b: seq<real>)
    ensures Stalled(a + b) <==> Stalled(a) && Stalled(b)
  {
    if Stalled(a + b) {
      forall i | 0 <= i < |a| ensures a[i] <= STALL_SPEED {
        assert (a + b)[i] == a[i];
      }
      forall i | 0 <= i < |b| ensures b[i] <= STALL_SPEED {
        assert (a + b)[|a| + i] == b[i];
      }
    }
  }

  /** Every car of a breeding pool has the standard genome shape. */
  predicate AllStandard(pool: seq<Car>) {
    forall i :: 0 <= i < |pool| ==> StandardShape(pool[i].genome)
  }

  // ---------------------------------------------------------------------------
  // Offspring

  /**
   * The draws of one offspring slot of `evolveNextGeneration`: one
   * `random(bestCars)` per parent, then those of `crossover` and `mutate`.
   */
  datatype SlotDraws = SlotDraws(parentA: real, parentB: real, cross: CrossoverDraws, mutation: MutationDraws)

  /** The draws cover a child of the standard shape. */
  predicate SlotFits(s: SlotDraws) {
    && IsUnit(s.parentA) && IsUnit(s.parentB)
    && |s.cross.chassis| >= NUM_VERTICES && |s.cross.sizes| >= NUM_WHEELS && |s.cross.positions| >= NUM_WHEELS
    && FieldDrawsFit(s.mutation.chassis, NUM_VERTICES)
    && FieldDrawsFit(s.mutation.sizes, NUM_WHEELS)
    && FieldDrawsFit(s.mutation.positions, NUM_WHEELS)
  }

  predicate AllSlotsFit(slots: seq<SlotDraws>) {
    forall i :: 0 <= i < |slots| ==> SlotFits(slots[i])
  }

  /** `parentA = random(bestCars)`: always a car of the pool. */
  function ParentA(pool: seq<Car>, s: SlotDraws): (a: Car)
    requires 0 < |pool| && IsUnit(s.parentA)
    ensures a in pool
  {
    pool[RandomIndex(s.parentA, |pool|)]
  }

  /** `parentB = random(bestCars)`: always a car of the pool. */
  function ParentB(pool: seq<Car>, s: SlotDraws): (b: Car)
    requires 0 < |pool| && IsUnit(s.parentB)
    ensures b in pool
  {
    pool[RandomIndex(s.parentB, |pool|)]
  }

  /** The genome of one slot's offspring: its parents crossed, then mutated. */
  function ChildGenome(pool: seq<Car>, s: SlotDraws, rate: real): (g: Genome)
    requires 0 < |pool| && AllStandard(pool) && SlotFits(s)
    ensures StandardShape(g)
  {
    var a := ParentA(pool, s);
    var b := ParentB(pool, s);
    CrossoverKeepsShape(a.genome, b.genome, s.cross);
    Mutated(Crossover(a.genome, b.genome, s.cross), rate, s.mutation)
  }

  /** What one slot produces: the car built from the child genome, or null. */
  function Child(pool: seq<Car>, s: SlotDraws, rate: real, terrain: seq<Vec2>): Option<Car>
    requires 0 < |pool| && AllStandard(pool) && SlotFits(s)
    requires 0 < |terrain| && StrictlyIncreasingX(terrain)
  {
    GenerateCarFromGenome(ChildGenome(pool, s, rate), terrain)
  }

  /**
   * `newCars` after the slots `slots`: each slot's car, in slot order,
   * with the slots whose build failed left out. On a pool of the standard
   * shape no build fails, so there is exactly one car per slot.
   */
  function Offspring(pool: seq<Car>, slots: seq<SlotDraws>, rate: real, terrain: seq<Vec2>): (r: seq<Car>)
    requires 0 < |pool| && AllStandard(pool) && AllSlotsFit(slots)
    requires 0 < |terrain| && StrictlyIncreasingX(terrain)
    ensures |r| == |slots|
    ensures forall i {:trigger Child(pool, slots[i], rate, terrain)} :: 0 <= i < |slots| ==> Some(r[i]) == Child(pool, slots[i], rate, terrain)
  {
    if slots == [] then []
    else
      var rest := Offspring(pool, slots[..|slots| - 1], rate, terrain);
      var c := Child(pool, slots[|slots| - 1], rate, terrain);
      if c.Some? then rest + [c.value] else rest
  }

  /** The slots up to `i` and slot `i` give the offspring of the slots up to `i + 1`. */
  lemma OffspringSnoc(pool: seq<Car>, slots: seq<SlotDraws>, i: nat, rate: real, terrain: seq<Vec2>)
    requires 0 < |pool| && AllStandard(pool) && AllSlotsFit(slots) && i < |slots|
    requires 0 < |terrain| && StrictlyIncreasingX(terrain)
    ensures var c := Child(pool, slots[i], rate, terrain);
      Offspring(pool, slots[..i + 1], rate, terrain)
      == Offspring(pool, slots[..i], rate, terrain) + (if c.Some? then [c.value] else [])
  {
    assert slots[..i + 1][..i] == slots[..i];
  }

  /**
   * The breeding loop of `evolveNextGeneration`: for each slot, two parents
   * drawn from the pool, crossed and mutated, and the car built from the
   * result pushed when the build succeeds.
   */
  method BreedOffspring(pool: seq<Car>, slots: seq<SlotDraws>, rate: real, terrain: seq<Vec2>)
    returns (newCars: seq<Car>)
    requires 0 < |pool| && AllStandard(pool) && AllSlotsFit(slots)
    requires 0 < |terrain| && StrictlyIncreasingX(terrain)
    ensures newCars == Offspring(pool, slots, rate, terrain)
  {
    newCars := [];
    var i := 0;
    while i < |slots|
      invariant 0 <= i <= |slots|
      invariant newCars == Offspring(pool, slots[..i], rate, terrain)
    {
      var s := slots[i];
      var parentA := ParentA(pool, s);
      var parentB := ParentB(pool, s);
      var offspringGenome := Crossover(parentA.genome, parentB.genome, s.cross);
      offspringGenome := Mutate(offspringGenome, rate, s.mutation);
      var offspringCar := GenerateCarFromGenome(offspringGenome, terrain);
      assert offspringCar == Child(pool, s, rate, terrain);
      OffspringSnoc(pool, slots, i, rate, terrain);
      if offspringCar.Some? {
        newCars := newCars + [offspringCar.value];
      }
      i := i + 1;
    }
    assert slots[..i] == slots;
  }

  /**
   * Every offspring of a standard pool is a new car of the standard shape:
   * fitness 0, created at the spawn point.
   */
  lemma OffspringBuilt(pool: seq<Car>, slots: seq<SlotDraws>, rate: real, terrain: seq<Vec2>)
    requires 0 < |pool| && AllStandard(pool) && AllSlotsFit(slots)
    requires 0 < |terrain| && StrictlyIncreasingX(terrain)
    ensures var r := Offspring(pool, slots, rate, terrain);
      forall i :: 0 <= i < |slots| ==>
        StandardShape(r[i].genome) && r[i].fitness == 0.0 && r[i].spawn == SpawnPoint(terrain)
  {
    var r := Offspring(pool, slots, rate, terrain);
    forall i | 0 <= i < |slots|
      ensures StandardShape(r[i].genome) && r[i].fitness == 0.0 && r[i].spawn == SpawnPoint(terrain)
    {
      assert Some(r[i]) == Child(pool, slots[i], rate, terrain);
      var g := ChildGenome(pool, slots[i], rate);
      assert r[i].genome == g;
    }
  }

  /**
   * Every offspring is a new car (fitness 0, created at the spawn point)
   * of the standard shape whose every gene comes from one of its two
   * parents, both from the pool, and is then moved by mutation at most
   * 0.05 per coordinate (vertices, wheel positions) or, for a wheel size,
   * kept or put in [0.05, 0.4].
   */
  lemma ChildInherits(pool: seq<Car>, s: SlotDraws, rate: real, terrain: seq<Vec2>)
    requires 0 < |pool| && AllStandard(pool) && SlotFits(s)
    requires 0 < |terrain| && StrictlyIncreasingX(terrain)
    ensures var c := Child(pool, s, rate, terrain);
      var a, b := ParentA(pool, s).genome, ParentB(pool, s).genome;
      && c.Some? && c.value.fitness == 0.0 && c.value.spawn == SpawnPoint(terrain)
      && StandardShape(c.value.genome)
      && (forall i :: 0 <= i < NUM_VERTICES ==>
            NearGene(c.value.genome.chassisVertices[i], a.chassisVertices[i])
            || NearGene(c.value.genome.chassisVertices[i], b.chassisVertices[i]))
      && (forall i :: 0 <= i < NUM_WHEELS ==>
            NearGene(c.value.genome.wheelPositions[i], a.wheelPositions[i])
            || NearGene(c.value.genome.wheelPositions[i], b.wheelPositions[i]))
      && (forall i :: 0 <= i < NUM_WHEELS ==>
            c.value.genome.wheelSizes[i] == a.wheelSizes[i]
            || c.value.genome.wheelSizes[i] == b.wheelSizes[i]
            || MIN_WHEEL_SIZE <= c.value.genome.wheelSizes[i] <= MAX_WHEEL_SIZE)
  {
    var a, b := ParentA(pool, s).genome, ParentB(pool, s).genome;
    CrossoverKeepsShape(a, b, s.cross);
    var x := Crossover(a, b, s.cross);
    MutatedBounds(x, rate, s.mutation);
  }

  /** `p` lies within one mutation step of `q` in each coordinate. */
  predicate NearGene(p: Vec2, q: Vec2) {
    -POINT_SHIFT <= p.x - q.x <= POINT_SHIFT && -POINT_SHIFT <= p.y - q.y <= POINT_SHIFT
  }

  /** `newCars.push(offspringCar)` as a list of (non-null) array slots. */
  function AsSlots(cs: seq<Car>): (r: seq<Option<Car>>)
  {
    seq(|cs|, i requires 0 <= i < |cs| => Some(cs[i]))
  }

  /** `generateRandomCars`: one car per draw, each built from a random genome. */
  function RandomCars(direction: nat -> Vec2, chassisRadius: real, wheelRadius: real,
                      draws: seq<GenomeDraws>, terrain: seq<Vec2>): (r: seq<Option<Car>>)
    requires forall i :: 0 <= i < |draws| ==> GenomeDrawsFit(draws[i])
    requires 0 < |terrain| && StrictlyIncreasingX(terrain)
    ensures |r| == |draws|
    ensures forall i :: 0 <= i < |r| ==>
      r[i].Some? && StandardShape(r[i].value.genome) && r[i].value.fitness == 0.0
      && r[i].value.genome == GenerateRandomGenome(direction, chassisRadius, wheelRadius, draws[i])
  {
    seq(|draws|, i requires 0 <= i < |draws| =>
      GenerateCarFromGenome(GenerateRandomGenome(direction, chassisRadius, wheelRadius, draws[i]), terrain))
  }

  /** A population of standard-shape cars has a standard-shape breeding pool. */
  lemma PoolStandard(cars: seq<Option<Car>>, numCars: nat)
    requires forall i :: 0 <= i < |cars| ==> cars[i].Some? && StandardShape(cars[i].value.genome)
    ensures AllStandard(BreedingPool(cars, numCars))
  {
    var pool := BreedingPool(cars, numCars);
    BreedingPoolMembers(cars, numCars);
    forall i | 0 <= i < |pool| ensures StandardShape(pool[i].genome) {
      assert Some(pool[i]) in cars;
    }
  }

  /**
   * With every car built, the breeding pool is empty exactly when the
   * population is a single car: a lone car never gets a second generation.
   */
  lemma SingleCarPool(cars: seq<Option<Car>>, numCars: nat)
    requires 1 <= numCars && |cars| == numCars
    requires forall i :: 0 <= i < |cars| ==> cars[i].Some?
    ensures BreedingPool(cars, numCars) == [] <==> numCars == 1
  {
    BreedingPoolEmpty(cars, numCars);
  }

  /** The x-positions of freshly built cars: where their bodies were created. */
  function SpawnXs(cs: seq<Option<Car>>): (xs: seq<real>)
    requires forall i :: 0 <= i < |cs| ==> cs[i].Some?
  {
    seq(|cs|, i requires 0 <= i < |cs| => cs[i].value.spawn.x)
  }

  // ---------------------------------------------------------------------------
  // All-time leading distance

  /** The update at the end of a tick: `allTimeLeadingDistance` rises to a larger distance. */
  function UpdateAllTime(best: real, distance: real): (r: real)
    ensures r >= best && r >= distance
    ensures r == best || r == distance
  {
    if distance > best then distance else best
  }

  /** `allTimeLeadingDistance` after a run of ticks observing `distances`, starting from `best`. */
  function RunningMax(best: real, distances: seq<real>): (r: real)
    ensures r >= best
    decreases |distances|
  {
    if distances == [] then best
    else RunningMax(UpdateAllTime(best, distances[0]), distances[1..])
  }

  /**
   * Over a run, the all-time distance never falls below where it started,
   * is at least every observed leading distance, and is the start or one
   * of the observations.
   */
  lemma {:induction false} RunningMaxSpec(best: real, distances: seq<real>)
    ensures RunningMax(best, distances) >= best
    ensures forall i :: 0 <= i < |distances| ==> RunningMax(best, distances) >= distances[i]
    ensures RunningMax(best, distances) == best || RunningMax(best, distances) in distances
    decreases |distances|
  {
    if distances != [] {
      var next := UpdateAllTime(best, distances[0]);
      RunningMaxSpec(next, distances[1..]);
      forall i | 1 <= i < |distances| ensures RunningMax(best, distances) >= distances[i] {
        assert distances[i] == distances[1..][i - 1];
      }
      assert RunningMax(best, distances) in distances[1..] ==> RunningMax(best, distances) in distances;
    }
  }

  /** Running the maximum over two stretches of ticks is running it over both. */
  lemma {:induction false} RunningMaxConcat(best: real, xs: seq<real>, ys: seq<real>)
    ensures RunningMax(best, xs + ys) == RunningMax(RunningMax(best, xs), ys)
    decreases |xs|
  {
    if xs == [] {
      assert xs + ys == ys;
    } else {
      assert (xs + ys)[0] == xs[0];
      assert (xs + ys)[1..] == xs[1..] + ys;
      RunningMaxConcat(UpdateAllTime(best, xs[0]), xs[1..], ys);
    }
  }

  // ---------------------------------------------------------------------------
  // The simulation

  /**
   * A non-empty terrain starting at x = 0, strictly increasing in x, with
   * the ground built from all of it.
   */
  predicate TerrainValid(vertices: seq<Vec2>, ground: seq<Edge>) {
    && 0 < |vertices| && vertices[0].x == 0.0 && StrictlyIncreasingX(vertices)
    && IsGroundOf(ground, vertices)
  }

  /** `numCars` (at least one) built cars of the standard shape. */
  predicate Population(cars: seq<Option<Car>>, numCars: nat) {
    && 1 <= numCars && |cars| == numCars
    && forall i :: 0 <= i < |cars| ==> cars[i].Some? && StandardShape(cars[i].value.genome)
  }

  /** The cars after `updateCarFitness`: each fitness is the car's x-position in pixels. */
  function Scored(cars: seq<Option<Car>>, positions: seq<real>): (r: seq<Option<Car>>)
    requires |positions| == |cars| && forall i :: 0 <= i < |cars| ==> cars[i].Some?
  {
    seq(|cars|, i requires 0 <= i < |cars| => Some(cars[i].value.(fitness := Fitness(positions[i]))))
  }

  /** A population of offspring of a standard pool, one per slot. */
  lemma OffspringPopulation(pool: seq<Car>, slots: seq<SlotDraws>, rate: real, terrain: seq<Vec2>)
    requires 0 < |pool| && AllStandard(pool) && AllSlotsFit(slots) && 1 <= |slots|
    requires 0 < |terrain| && StrictlyIncreasingX(terrain)
    ensures Population(AsSlots(Offspring(pool, slots, rate, terrain)), |slots|)
  {
    OffspringBuilt(pool, slots, rate, terrain);
  }

  /**
   * The breeding half of `evolveNextGeneration` for a non-empty pool:
   * the new `cars` array, one offspring of the pool per slot.
   */
  method NextGeneration(cars: seq<Option<Car>>, numCars: nat, slots: seq<SlotDraws>, rate: real, terrain: seq<Vec2>)
    returns (next: seq<Option<Car>>)
    requires Population(cars, numCars) && |slots| == numCars && AllSlotsFit(slots)
    requires 0 < |BreedingPool(cars, numCars)|
    requires 0 < |terrain| && StrictlyIncreasingX(terrain)
    ensures Population(next, numCars)
    ensures var pool := BreedingPool(cars, numCars);
      AllStandard(pool) && next == AsSlots(Offspring(pool, slots, rate, terrain))
    ensures forall i :: 0 <= i < |next| ==> next[i].value.fitness == 0.0 && next[i].value.spawn == SpawnPoint(terrain)
  {
    var pool := BreedingPool(cars, numCars);
    PoolStandard(cars, numCars);
    var newCars := BreedOffspring(pool, slots, rate, terrain);
    OffspringBuilt(pool, slots, rate, terrain);
    OffspringPopulation(pool, slots, rate, terrain);
    next := AsSlots(newCars);
  }

  class Simulation {
    var vertices: seq<Vec2>
    var start: real
    /** The edges of the ground body most recently built by `createGround`. */
    var ground: seq<Edge>
    var cars: seq<Option<Car>>
    var generation: nat
    var allTimeLeadingDistance: real
    /** Whether p5 keeps calling `draw` (`loop()` / `noLoop()`). */
    var looping: bool
    var isRunning: bool
    var numCars: nat
    var mutationRate: real

    /**
     * The simulation invariant: a non-empty terrain starting at x = 0,
     * strictly increasing in x, with the ground built from all of it, and
     * `numCars` (at least one) built cars of the standard shape.
     */
    ghost predicate Valid()
      reads this
    {
      && TerrainValid(vertices, ground)
      && Population(cars, numCars)
    }

    /**
     * `setup`, with the form's values as parameters: counters reset, one
     * canvas width of terrain from `start`, its ground, `numCars` random
     * cars, and the draw loop on. `start` carries over from any earlier
     * run, as the global does. `setup` itself never touches `isRunning`;
     * this is the first `setup`, where `isRunning` still holds the value
     * true its declaration gives it. A later `setup` from the start button
     * would keep a paused state, which only the pause button (not
     * modelled) can produce.
     */
    constructor (numCars: nat, mutationRate: real, chassisRadius: real, wheelRadius: real,
                 start: real, noise: real -> real, direction: nat -> Vec2, draws: seq<GenomeDraws>)
      requires 1 <= numCars && |draws| == numCars
      requires forall i :: 0 <= i < |draws| ==> GenomeDrawsFit(draws[i])
      ensures Valid()
      ensures generation == 0 && allTimeLeadingDistance == 0.0 && looping && isRunning
      ensures this.numCars == numCars && this.mutationRate == mutationRate
      ensures vertices == InitialTerrain(start, noise) && this.start == start + INC
      ensures cars == RandomCars(direction, chassisRadius, wheelRadius, draws, vertices)
    {
      this.numCars, this.mutationRate := numCars, mutationRate;
      generation, allTimeLeadingDistance := 0, 0.0;
      isRunning, looping := true, true;
      vertices, this.start, ground, cars := [], start, [], [];
      new;
      GenerateTerrain(noise);
      ColumnsContiguous(0.0, WIDTH, start, INC, HEIGHT * 0.5, HEIGHT, noise);
      CreateGround();
      cars := RandomCars(direction, chassisRadius, wheelRadius, draws, vertices);
    }

    /** `generateTerrain`: pushes pixel columns 0 .. WIDTH - 1, then advances `start` by `inc`. */
    method GenerateTerrain(noise: real -> real)
      modifies this
      ensures vertices == old(vertices) + InitialTerrain(old(start), noise)
      ensures start == old(start) + INC
      ensures ground == old(ground) && cars == old(cars) && generation == old(generation)
      ensures allTimeLeadingDistance == old(allTimeLeadingDistance) && looping == old(looping)
      ensures isRunning == old(isRunning) && numCars == old(numCars) && mutationRate == old(mutationRate)
    {
      var pushed := vertices;
      var xoff := start;
      var x := 0;
      while x < WIDTH
        invariant 0 <= x <= WIDTH
        invariant xoff == start + x as real * INC
        invariant pushed == vertices + Columns(0.0, x, start, INC, HEIGHT * 0.5, HEIGHT, noise)
        modifies {}
      {
        var y := noise(xoff) * HEIGHT * 0.5 + HEIGHT * 0.25;
        assert y == noise(xoff) * (HEIGHT * 0.5) + HEIGHT * 0.25;
        ColumnsSnoc(0.0, x, start, INC, HEIGHT * 0.5, HEIGHT, noise);
        assert xoff == start + x as real * INC;
        assert Vec2(x as real / SCALE, (HEIGHT - y) / SCALE) == Column(0.0, x, start, INC, HEIGHT * 0.5, HEIGHT, noise);
        pushed := pushed + [Vec2(x as real / SCALE, (HEIGHT - y) / SCALE)];
        xoff := xoff + INC;
        x := x + 1;
      }
      vertices := pushed;
      start := start + INC;
    }

    /**
     * `generateMoreTerrain`: pushes the pixel columns strictly between the
     * frontier's column and one canvas width further, with amplitude and
     * noise step growing with the frontier's distance, then advances
     * `start` by that noise step.
     */
    method GenerateMoreTerrain(noise: real -> real)
      requires 0 < |vertices|
      modifies this
      ensures vertices == old(vertices) + MoreTerrain(old(vertices)[|old(vertices)| - 1], old(start), noise)
      ensures start == old(start) + Frequency(old(vertices)[|old(vertices)| - 1].x)
      ensures ground == old(ground) && cars == old(cars) && generation == old(generation)
      ensures allTimeLeadingDistance == old(allTimeLeadingDistance) && looping == old(looping)
      ensures isRunning == old(isRunning) && numCars == old(numCars) && mutationRate == old(mutationRate)
    {
      var pushed := vertices;
      var lastVertex := vertices[|vertices| - 1];
      var xoff := start + lastVertex.x * INC * SCALE;
      var difficulty := lastVertex.x * 0.004;
      var amplitude := HEIGHT * 0.5 + HEIGHT * difficulty;
      var frequency := INC + difficulty * 0.0005;
      ghost var xoff0 := xoff;
      ghost var firstPx := lastVertex.x * SCALE + 1.0;
      var x := lastVertex.x * SCALE + 1.0;
      ghost var k: nat := 0;
      while x < lastVertex.x * SCALE + WIDTH as real
        invariant x == firstPx + k as real && k <= WIDTH - 1
        invariant xoff == xoff0 + k as real * frequency
        invariant pushed == vertices + Columns(firstPx, k, xoff0, frequency, amplitude, HEIGHT, noise)
        modifies {}
        decreases WIDTH - k
      {
        var y := noise(xoff) * amplitude + HEIGHT * 0.25;
        ColumnsSnoc(firstPx, k, xoff0, frequency, amplitude, HEIGHT, noise);
        assert Vec2(x / SCALE, (HEIGHT - y) / SCALE) == Column(firstPx, k, xoff0, frequency, amplitude, HEIGHT, noise);
        pushed := pushed + [Vec2(x / SCALE, (HEIGHT - y) / SCALE)];
        xoff := xoff + frequency;
        x := x + 1.0;
        k := k + 1;
      }
      vertices := pushed;
      start := start + frequency;
    }

    /** `createGround`: a new ground body with one edge per neighbouring pair. */
    method CreateGround()
      modifies this
      ensures IsGroundOf(ground, vertices)
      ensures vertices == old(vertices) && start == old(start) && cars == old(cars)
      ensures generation == old(generation) && allTimeLeadingDistance == old(allTimeLeadingDistance)
      ensures looping == old(looping) && isRunning == old(isRunning)
      ensures numCars == old(numCars) && mutationRate == old(mutationRate)
    {
      ground := Heightfield.CreateGround(vertices);
    }

    /**
     * The per-car loop of `draw`: each car's fitness becomes its
     * x-position in pixels, and `allCarsStopped` holds exactly when no car
     * moves right faster than STALL_SPEED.
     */
    method UpdateCars(positions: seq<real>, velocities: seq<real>) returns (allCarsStopped: bool)
      requires Valid() && |positions| == |cars| && |velocities| == |cars|
      modifies this
      ensures Valid()
      ensures allCarsStopped <==> Stalled(velocities)
      ensures cars == Scored(old(cars), positions)
      ensures vertices == old(vertices) && start == old(start) && ground == old(ground)
      ensures generation == old(generation) && allTimeLeadingDistance == old(allTimeLeadingDistance)
      ensures looping == old(looping) && isRunning == old(isRunning)
      ensures numCars == old(numCars) && mutationRate == old(mutationRate)
    {
      allCarsStopped := true;
      var i := 0;
      while i < |cars|
        invariant 0 <= i <= |cars| == |old(cars)|
        invariant allCarsStopped <==> Stalled(velocities[..i])
        invariant forall j :: 0 <= j < i ==> cars[j] == Some(old(cars)[j].value.(fitness := Fitness(positions[j])))
        invariant forall j :: i <= j < |cars| ==> cars[j] == old(cars)[j]
        invariant vertices == old(vertices) && ground == old(ground) && numCars == old(numCars)
        invariant start == old(start) && generation == old(generation)
        invariant allTimeLeadingDistance == old(allTimeLeadingDistance) && looping == old(looping)
        invariant isRunning == old(isRunning) && mutationRate == old(mutationRate)
      {
        var car := cars[i].value;
        cars := cars[i := Some(car.(fitness := Fitness(positions[i])))];
        if velocities[i] > STALL_SPEED {
          allCarsStopped := false;
        }
        assert velocities[..i + 1] == velocities[..i] + [velocities[i]];
        i := i + 1;
      }
      assert velocities[..i] == velocities;
      assert cars == Scored(old(cars), positions);
    }

    /**
     * `evolveNextGeneration`: the generation counter goes up first; with an
     * empty breeding pool the draw loop stops and nothing else changes;
     * otherwise the cars are replaced by the offspring of the pool, one
     * per slot, and the ground is rebuilt.
     */
    method EvolveNextGeneration(slots: seq<SlotDraws>) returns (halted: bool)
      requires Valid() && |slots| == numCars && AllSlotsFit(slots)
      modifies this
      ensures Valid()
      ensures generation == old(generation) + 1
      ensures halted <==> BreedingPool(old(cars), numCars) == []
      ensures halted ==> !looping && cars == old(cars) && ground == old(ground)
      ensures !halted ==> looping == old(looping)
      ensures !halted ==> var pool := BreedingPool(old(cars), numCars);
        0 < |pool| && AllStandard(pool) && cars == AsSlots(Offspring(pool, slots, mutationRate, vertices))
      ensures !halted ==> forall i :: 0 <= i < |cars| ==>
        cars[i].value.fitness == 0.0 && cars[i].value.spawn == SpawnPoint(vertices)
      ensures vertices == old(vertices) && start == old(start)
      ensures allTimeLeadingDistance == old(allTimeLeadingDistance) && isRunning == old(isRunning)
      ensures numCars == old(numCars) && mutationRate == old(mutationRate)
    {
      var pool := BreedingPool(cars, numCars);
      if |pool| == 0 {
        generation, looping := generation + 1, false;
        return true;
      }
      var next := NextGeneration(cars, numCars, slots, mutationRate, vertices);
      generation, cars := generation + 1, next;
      return false;
    }

    /**
     * The terrain step at the end of `draw`: when the leading car's pixel
     * position is within one canvas width of the frontier's pixel column,
     * extend the terrain and rebuild the ground. An extension keeps the
     * existing vertices and moves the frontier (WIDTH - 1) / SCALE metres
     * forward.
     */
    method ExtendIfNeeded(carPositionX: real, noise: real -> real) returns (extended: bool)
      requires Valid()
      modifies this
      ensures Valid()
      ensures extended <==> old(NeedsMoreTerrain(carPositionX, vertices))
      ensures extended ==> vertices == old(vertices) + MoreTerrain(old(vertices)[|old(vertices)| - 1], old(start), noise)
      ensures extended ==> start == old(start) + Frequency(old(vertices)[|old(vertices)| - 1].x)
      ensures extended ==> vertices[|vertices| - 1].x == old(vertices)[|old(vertices)| - 1].x + (WIDTH - 1) as real / SCALE
      ensures !extended ==> vertices == old(vertices) && start == old(start) && ground == old(ground)
      ensures cars == old(cars) && generation == old(generation) && looping == old(looping)
      ensures allTimeLeadingDistance == old(allTimeLeadingDistance) && isRunning == old(isRunning)
      ensures numCars == old(numCars) && mutationRate == old(mutationRate)
    {
      extended := NeedsMoreTerrain(carPositionX, vertices);
      if extended {
        MoreTerrainContiguous(vertices, start, noise);
        var more := MoreTerrain(vertices[|vertices| - 1], start, noise);
        assert (vertices + more)[0] == vertices[0];
        GenerateMoreTerrain(noise);
        CreateGround();
      }
    }

    /**
     * The leading-car step of `draw`, for the cars' x-positions `xs`: the
     * leading distance is the leading car's x in pixels, and the all-time
     * distance rises to it when it is larger.
     */
    method TrackLeader(xs: seq<real>) returns (leadingDistance: real)
      requires 0 < |xs|
      modifies this
      ensures leadingDistance == LeadingDistance(xs)
      ensures allTimeLeadingDistance == UpdateAllTime(old(allTimeLeadingDistance), leadingDistance)
      ensures vertices == old(vertices) && start == old(start) && ground == old(ground)
      ensures cars == old(cars) && generation == old(generation) && looping == old(looping)
      ensures isRunning == old(isRunning) && numCars == old(numCars) && mutationRate == old(mutationRate)
    {
      var leadingCar := LeadingCar(xs);
      leadingDistance := xs[leadingCar] * SCALE;
      if leadingDistance > allTimeLeadingDistance {
        allTimeLeadingDistance := leadingDistance;
      }
    }

    /**
     * The first half of a running `draw` tick: fitness is updated from the
     * cars' x-positions, and a stall evolves a new generation. The result
     * is where the cars now are: the given positions, or the spawn point
     * of the new cars, whose bodies have not moved yet.
     */
    method StepCars(positions: seq<real>, velocities: seq<real>, slots: seq<SlotDraws>)
      returns (xs: seq<real>)
      requires Valid() && |positions| == |cars| && |velocities| == |cars|
      requires |slots| == numCars && AllSlotsFit(slots)
      modifies this
      ensures Valid()
      ensures |xs| == numCars
      ensures generation == old(generation) + (if Stalled(velocities) then 1 else 0)
      ensures !Stalled(velocities) || numCars == 1 ==> cars == Scored(old(cars), positions) && xs == positions
      ensures Stalled(velocities) && numCars == 1 ==> !looping
      ensures !Stalled(velocities) || numCars > 1 ==> looping == old(looping)
      ensures Stalled(velocities) && numCars > 1 ==>
        var pool := BreedingPool(Scored(old(cars), positions), numCars);
        && 0 < |pool| && AllStandard(pool)
        && cars == AsSlots(Offspring(pool, slots, mutationRate, vertices))
        && forall i :: 0 <= i < numCars ==>
             cars[i].value.fitness == 0.0 && cars[i].value.spawn == SpawnPoint(vertices) && xs[i] == CAR_START_X
      ensures vertices == old(vertices) && start == old(start)
      ensures allTimeLeadingDistance == old(allTimeLeadingDistance) && isRunning == old(isRunning)
      ensures numCars == old(numCars) && mutationRate == old(mutationRate)
    {
      var allCarsStopped := UpdateCars(positions, velocities);
      xs := positions;
      if allCarsStopped {
        SingleCarPool(cars, numCars);
        var halted := EvolveNextGeneration(slots);
        if !halted {
          // the new cars' bodies are still where they were created
          xs := SpawnXs(cars);
        }
      }
    }

    /**
     * The second half of a running `draw` tick, for the cars' x-positions
     * `xs`: the leading distance and the all-time distance, then the
     * terrain extension when the leading car's pixel position is within
     * one canvas width of the frontier.
     */
    method FollowLeader(xs: seq<real>, noise: real -> real) returns (leadingDistance: real)
      requires Valid() && 0 < |xs|
      modifies this
      ensures Valid()
      ensures leadingDistance == LeadingDistance(xs)
      ensures allTimeLeadingDistance == UpdateAllTime(old(allTimeLeadingDistance), leadingDistance)
      ensures var last := old(vertices)[|old(vertices)| - 1];
        if NeedsMoreTerrain(leadingDistance, old(vertices)) then
          vertices == old(vertices) + MoreTerrain(last, old(start), noise) && start == old(start) + Frequency(last.x)
        else
          vertices == old(vertices) && start == old(start) && ground == old(ground)
      ensures cars == old(cars) && generation == old(generation) && looping == old(looping)
      ensures isRunning == old(isRunning) && numCars == old(numCars) && mutationRate == old(mutationRate)
    {
      leadingDistance := TrackLeader(xs);
      var carPositionX := xs[LeadingCar(xs)] * SCALE;
      var _ := ExtendIfNeeded(carPositionX, noise);
    }

    /**
     * One `draw` tick, with the physics results as inputs: `positions` and
     * `velocities` are the cars' x-positions and x-velocities after the
     * world step, `slots` the draws of a possible new generation. Nothing
     * happens when the simulation is paused. Otherwise fitness is updated;
     * a stall evolves a new generation from the fittest half of the cars
     * just scored (and stops the loop when that half is empty, which with
     * every car built means a single car); the all-time distance rises to
     * the leading distance; and the terrain is extended exactly when the
     * leading car is within one canvas width of the frontier.
     */
    method Draw(positions: seq<real>, velocities: seq<real>, slots: seq<SlotDraws>, noise: real -> real)
      returns (leadingDistance: real)
      requires Valid() && |positions| == |cars| && |velocities| == |cars|
      requires |slots| == numCars && AllSlotsFit(slots)
      modifies this
      ensures Valid()
      ensures numCars == old(numCars) && mutationRate == old(mutationRate) && isRunning == old(isRunning)
      ensures !old(isRunning) ==>
        && vertices == old(vertices) && start == old(start) && ground == old(ground)
        && cars == old(cars) && generation == old(generation)
        && allTimeLeadingDistance == old(allTimeLeadingDistance) && looping == old(looping)
      ensures old(isRunning) ==>
        && generation == old(generation) + (if Stalled(velocities) then 1 else 0)
        && allTimeLeadingDistance == UpdateAllTime(old(allTimeLeadingDistance), leadingDistance)
      ensures old(isRunning) && (!Stalled(velocities) || numCars == 1) ==>
        cars == Scored(old(cars), positions) && leadingDistance == LeadingDistance(positions)
      ensures old(isRunning) && Stalled(velocities) && numCars == 1 ==> !looping
      ensures old(isRunning) && (!Stalled(velocities) || numCars > 1) ==> looping == old(looping)
      ensures old(isRunning) && Stalled(velocities) && numCars > 1 ==>
        var pool := BreedingPool(Scored(old(cars), positions), numCars);
        && 0 < |pool| && AllStandard(pool)
        && cars == AsSlots(Offspring(pool, slots, mutationRate, old(vertices)))
        && leadingDistance == Fitness(CAR_START_X)
      ensures old(isRunning) ==> var last := old(vertices)[|old(vertices)| - 1];
        if NeedsMoreTerrain(leadingDistance, old(vertices)) then
          vertices == old(vertices) + MoreTerrain(last, old(start), noise) && start == old(start) + Frequency(last.x)
        else
          vertices == old(vertices) && start == old(start)
    {
      if !isRunning {
        return 0.0;
      }
      var xs := StepCars(positions, velocities, slots);
      leadingDistance := FollowLeader(xs, noise);
    }
  }
}
