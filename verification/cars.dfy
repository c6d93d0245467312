/**
 * Cars of Main-Project/script/main.js: building one from a genome
 * (`generateCarFromGenome`), its fitness (`updateCarFitness`) and the
 * choice of the leading car (`findLeadingCar`). Bodies, fixtures and
 * joints belong to the physics engine; a car records where its chassis
 * and wheels were created, and positions read back from the engine
 * enter as inputs.
 */
module Cars {
  import opened Vectors
  import opened Options
  import opened Heightfield
  import opened Genetics

  /** `carStartX`: where every chassis is created, in metres. */
  const CAR_START_X: real := 100.0 / SCALE
  /** How far above the terrain surface the chassis is created. */
  const SPAWN_CLEARANCE: real := 20.0 / SCALE

  /** A wheel body: created at `position`, pinned to the chassis there, of the given radius. */
  datatype Wheel = Wheel(position: Vec2, radius: real)

  /** A car: where its chassis was created, its wheels, its fitness and its genome. */
  datatype Car = Car(spawn: Vec2, wheels: seq<Wheel>, fitness: real, genome: Genome)

  /** The chassis' creation point: `(carStartX, getYPositionAtX(carStartX) + 20 / SCALE)`. */
  function SpawnPoint(terrain: seq<Vec2>): Vec2
    requires 0 < |terrain| && StrictlyIncreasingX(terrain)
  {
    Vec2(CAR_START_X, HeightAt(terrain, CAR_START_X) + SPAWN_CLEARANCE)
  }

  /**
   * `generateCarFromGenome`: no car (null) exactly when the chassis has 2
   * or fewer vertices; otherwise a car with fitness 0, the same genome,
   * and one wheel per wheel size, created at the spawn point plus the
   * wheel's offset with that size as radius.
   */
  function GenerateCarFromGenome(g: Genome, terrain: seq<Vec2>): (r: Option<Car>)
    requires 0 < |terrain| && StrictlyIncreasingX(terrain)
    requires |g.chassisVertices| > 2 ==> |g.wheelPositions| >= |g.wheelSizes|
    ensures r.None? <==> |g.chassisVertices| <= 2
    ensures r.Some? ==> r.value.genome == g && r.value.fitness == 0.0
    ensures r.Some? ==> r.value.spawn == SpawnPoint(terrain)
    ensures r.Some? ==> |r.value.wheels| == |g.wheelSizes|
    ensures r.Some? ==> forall i :: 0 <= i < |g.wheelSizes| ==>
      r.value.wheels[i].radius == g.wheelSizes[i] &&
      r.value.wheels[i].position == Add(SpawnPoint(terrain), g.wheelPositions[i])
  {
    var spawn := SpawnPoint(terrain);
    if |g.chassisVertices| <= 2 then None
    else
      var wheels := seq(|g.wheelSizes|, i requires 0 <= i < |g.wheelSizes| =>
        Wheel(Add(spawn, g.wheelPositions[i]), g.wheelSizes[i]));
      Some(Car(spawn, wheels, 0.0, g))
  }

  /** A genome of the standard shape always builds, with two wheels. */
  lemma StandardGenomeBuilds(g: Genome, terrain: seq<Vec2>)
    requires 0 < |terrain| && StrictlyIncreasingX(terrain)
    requires StandardShape(g)
    ensures GenerateCarFromGenome(g, terrain).Some?
    ensures |GenerateCarFromGenome(g, terrain).value.wheels| == NUM_WHEELS
  {
  }

  /** `updateCarFitness`: the chassis x-position, in pixels. */
  function Fitness(positionX: real): (f: real)
    ensures f / SCALE == positionX
  {
    positionX * SCALE
  }

  /** Fitness orders cars exactly as their x-positions do. */
  lemma FitnessOrdersLikePosition(x1: real, x2: real)
    ensures Fitness(x1) < Fitness(x2) <==> x1 < x2
    ensures Fitness(x1) == Fitness(x2) <==> x1 == x2
  {
  }

  /**
   * The `reduce` of `findLeadingCar` after visiting cars `0 .. i - 1`
   * with `leader` as the accumulator: a car replaces the leader only
   * when it is strictly further right.
   */
  function LeaderFrom(xs: seq<real>, i: nat, leader: nat): (k: nat)
    requires leader < |xs| && leader <= i <= |xs|
    requires forall j :: 0 <= j < i ==> xs[j] <= xs[leader]
    requires forall j :: 0 <= j < leader ==> xs[j] < xs[leader]
    ensures k < |xs|
    ensures forall j :: 0 <= j < |xs| ==> xs[j] <= xs[k]
    ensures forall j :: 0 <= j < k ==> xs[j] < xs[k]
    decreases |xs| - i
  {
    if i == |xs| then leader
    else LeaderFrom(xs, i + 1, if xs[i] > xs[leader] then i else leader)
  }

  /**
   * `findLeadingCar`, over the cars' x-positions: the first car with the
   * largest x; a later car with the same x does not take the lead.
   */
  function LeadingCar(xs: seq<real>): (k: nat)
    requires 0 < |xs|
    ensures k < |xs|
    ensures forall j :: 0 <= j < |xs| ==> xs[j] <= xs[k]
    ensures forall j :: 0 <= j < k ==> xs[j] < xs[k]
  {
    LeaderFrom(xs, 0, 0)
  }

  /** `findLeadingCarDistance`: the leading car's x-position in pixels. */
  function LeadingDistance(xs: seq<real>): (d: real)
    requires 0 < |xs|
    ensures forall j :: 0 <= j < |xs| ==> Fitness(xs[j]) <= d
    ensures exists j :: 0 <= j < |xs| && d == Fitness(xs[j])
  {
    var k := LeadingCar(xs);
    assert forall j :: 0 <= j < |xs| ==> xs[j] * SCALE <= xs[k] * SCALE;
    Fitness(xs[k])
  }
}
