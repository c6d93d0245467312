/**
 * The genome of Main-Project/script/main.js and its genetic operators:
 * `generateRandomGenome`, `crossover` and `mutate`. Every call to p5's
 * `random()` is an explicit draw in [0, 1), grouped by the gene it
 * decides.
 */
module Genetics {
  import opened Vectors
  import opened Draws
  import opened Heightfield

  /** Chassis polygon, wheel radii and wheel offsets from the chassis centre (metres). */
  datatype Genome = Genome(chassisVertices: seq<Vec2>, wheelSizes: seq<real>, wheelPositions: seq<Vec2>)

  const NUM_VERTICES: nat := 6
  const NUM_WHEELS: nat := 2

  /** The shape every generated genome has: 6 chassis vertices, 2 wheels. */
  predicate StandardShape(g: Genome) {
    |g.chassisVertices| == NUM_VERTICES && |g.wheelSizes| == NUM_WHEELS && |g.wheelPositions| == NUM_WHEELS
  }

  predicate AllUnits(s: seq<real>) {
    forall i :: 0 <= i < |s| ==> IsUnit(s[i])
  }

  // ---------------------------------------------------------------------------
  // generateRandomGenome

  /**
   * The draws of one `generateRandomGenome` call: a chassis radius per
   * vertex, a size per wheel, and an x- and a y-offset per wheel.
   */
  datatype GenomeDraws = GenomeDraws(radius: seq<real>, size: seq<real>, offsetX: seq<real>, offsetY: seq<real>)

  predicate GenomeDrawsFit(d: GenomeDraws) {
    && |d.radius| >= NUM_VERTICES && AllUnits(d.radius)
    && |d.size| >= NUM_WHEELS && AllUnits(d.size)
    && |d.offsetX| >= NUM_WHEELS && AllUnits(d.offsetX)
    && |d.offsetY| >= NUM_WHEELS && AllUnits(d.offsetY)
  }

  /**
   * `generateRandomGenome`: vertex `i` lies on the ray `direction(i)` (the
   * unit vector at angle i * 2 * PI / 6) at a distance drawn from
   * [10, chassisRadius] / SCALE; wheel `i` has a radius drawn from
   * [5, wheelRadius] / SCALE and an offset drawn from [-0.5, 0.5] x [-0.2, 0.2].
   */
  function GenerateRandomGenome(direction: nat -> Vec2, chassisRadius: real, wheelRadius: real,
                                d: GenomeDraws): (g: Genome)
    requires GenomeDrawsFit(d)
    ensures StandardShape(g)
    ensures forall i :: 0 <= i < NUM_WHEELS ==>
      Min(5.0, wheelRadius) / SCALE <= g.wheelSizes[i] <= Max(5.0, wheelRadius) / SCALE
    ensures forall i :: 0 <= i < NUM_WHEELS ==>
      -0.5 <= g.wheelPositions[i].x <= 0.5 && -0.2 <= g.wheelPositions[i].y <= 0.2
  {
    Genome(
      seq(NUM_VERTICES, i requires 0 <= i < NUM_VERTICES =>
        Scale(direction(i), RandomBetween(d.radius[i], 10.0, chassisRadius) / SCALE)),
      seq(NUM_WHEELS, i requires 0 <= i < NUM_WHEELS =>
        RandomBetween(d.size[i], 5.0, wheelRadius) / SCALE),
      seq(NUM_WHEELS, i requires 0 <= i < NUM_WHEELS =>
        Vec2(RandomBetween(d.offsetX[i], -0.5, 0.5), RandomBetween(d.offsetY[i], -0.2, 0.2))))
  }

  // ---------------------------------------------------------------------------
  // crossover

  /** One `random()` per gene: below 0.5 takes parent A's gene, otherwise parent B's. */
  datatype CrossoverDraws = CrossoverDraws(chassis: seq<real>, sizes: seq<real>, positions: seq<real>)

  /**
   * The field-wise combinator: entry `i` comes from `xs` when `draws[i] < 0.5`
   * and from `ys` otherwise; the result is as long as `xs`.
   */
  function Pick<T>(xs: seq<T>, ys: seq<T>, draws: seq<real>): (zs: seq<T>)
    requires |ys| >= |xs| && |draws| >= |xs|
    ensures |zs| == |xs|
    ensures forall i :: 0 <= i < |xs| ==> zs[i] == xs[i] || zs[i] == ys[i]
    ensures forall i :: 0 <= i < |xs| && draws[i] < 0.5 ==> zs[i] == xs[i]
    ensures forall i :: 0 <= i < |xs| && draws[i] >= 0.5 ==> zs[i] == ys[i]
  {
    seq(|xs|, i requires 0 <= i < |xs| => if draws[i] < 0.5 then xs[i] else ys[i])
  }

  /** The second parent and the draws cover every gene of the first parent. */
  predicate CrossoverFits(a: Genome, b: Genome, m: CrossoverDraws) {
    && |b.chassisVertices| >= |a.chassisVertices| && |m.chassis| >= |a.chassisVertices|
    && |b.wheelSizes| >= |a.wheelSizes| && |m.sizes| >= |a.wheelSizes|
    && |b.wheelPositions| >= |a.wheelPositions| && |m.positions| >= |a.wheelPositions|
  }

  /**
   * `crossover`: a child whose three sequences are as long as parent A's,
   * each entry copied from A or from B at the same index.
   */
  function Crossover(a: Genome, b: Genome, m: CrossoverDraws): (c: Genome)
    requires CrossoverFits(a, b, m)
    ensures |c.chassisVertices| == |a.chassisVertices|
    ensures |c.wheelSizes| == |a.wheelSizes|
    ensures |c.wheelPositions| == |a.wheelPositions|
    ensures forall i :: 0 <= i < |c.chassisVertices| ==>
      c.chassisVertices[i] == a.chassisVertices[i] || c.chassisVertices[i] == b.chassisVertices[i]
    ensures forall i :: 0 <= i < |c.wheelSizes| ==>
      c.wheelSizes[i] == a.wheelSizes[i] || c.wheelSizes[i] == b.wheelSizes[i]
    ensures forall i :: 0 <= i < |c.wheelPositions| ==>
      c.wheelPositions[i] == a.wheelPositions[i] || c.wheelPositions[i] == b.wheelPositions[i]
  {
    Genome(Pick(a.chassisVertices, b.chassisVertices, m.chassis),
           Pick(a.wheelSizes, b.wheelSizes, m.sizes),
           Pick(a.wheelPositions, b.wheelPositions, m.positions))
  }

  /** Crossing a genome with itself gives it back, whatever the draws. */
  lemma CrossoverSelf(a: Genome, m: CrossoverDraws)
    requires CrossoverFits(a, a, m)
    ensures Crossover(a, a, m) == a
  {
    var c := Crossover(a, a, m);
    assert c.chassisVertices == a.chassisVertices;
    assert c.wheelSizes == a.wheelSizes;
    assert c.wheelPositions == a.wheelPositions;
  }

  /** Parents of the standard shape have a child of the standard shape. */
  lemma CrossoverKeepsShape(a: Genome, b: Genome, m: CrossoverDraws)
    requires StandardShape(a) && StandardShape(b) && CrossoverFits(a, b, m)
    ensures StandardShape(Crossover(a, b, m))
  {
  }

  // ---------------------------------------------------------------------------
  // mutate

  /**
   * The draws for one gene: `select` decides whether it mutates
   * (`random() < mutationRate`); `dx` and `dy` are the draws behind the
   * perturbations (a wheel size uses `dx` only).
   */
  datatype FieldDraw = FieldDraw(select: real, dx: real, dy: real)

  datatype MutationDraws = MutationDraws(chassis: seq<FieldDraw>, sizes: seq<FieldDraw>, positions: seq<FieldDraw>)

  predicate FieldDrawsFit(ds: seq<FieldDraw>, n: nat) {
    && |ds| >= n
    && forall i :: 0 <= i < |ds| ==> IsUnit(ds[i].select) && IsUnit(ds[i].dx) && IsUnit(ds[i].dy)
  }

  predicate MutationFits(g: Genome, d: MutationDraws) {
    && FieldDrawsFit(d.chassis, |g.chassisVertices|)
    && FieldDrawsFit(d.sizes, |g.wheelSizes|)
    && FieldDrawsFit(d.positions, |g.wheelPositions|)
  }

  /** Largest move of a mutated vertex or wheel-position coordinate. */
  const POINT_SHIFT: real := 0.05
  /** Largest change of a mutated wheel size before clamping. */
  const SIZE_SHIFT: real := 0.02
  /** The clamp range of a mutated wheel size. */
  const MIN_WHEEL_SIZE: real := 0.05
  const MAX_WHEEL_SIZE: real := 0.4

  /**
   * A chassis vertex or wheel position under mutation: when selected, each
   * coordinate moves by a draw from [-0.05, 0.05]; otherwise it is unchanged.
   */
  function MutatePoint(p: Vec2, d: FieldDraw, rate: real): (q: Vec2)
    requires IsUnit(d.dx) && IsUnit(d.dy)
    ensures d.select >= rate ==> q == p
    ensures -POINT_SHIFT <= q.x - p.x <= POINT_SHIFT && -POINT_SHIFT <= q.y - p.y <= POINT_SHIFT
  {
    if d.select < rate then
      Vec2(p.x + RandomBetween(d.dx, -POINT_SHIFT, POINT_SHIFT), p.y + RandomBetween(d.dy, -POINT_SHIFT, POINT_SHIFT))
    else p
  }

  /**
   * A wheel size under mutation: when selected, it moves by a draw from
   * [-0.02, 0.02] and is then clamped to [0.05, 0.4], so it either moves
   * by at most 0.02 or lands on a bound; otherwise it is unchanged (and
   * not clamped).
   */
  function MutateSize(s: real, d: FieldDraw, rate: real): (r: real)
    requires IsUnit(d.dx)
    ensures d.select >= rate ==> r == s
    ensures d.select < rate ==> MIN_WHEEL_SIZE <= r <= MAX_WHEEL_SIZE
    ensures d.select < rate ==> -SIZE_SHIFT <= r - s <= SIZE_SHIFT || r == MIN_WHEEL_SIZE || r == MAX_WHEEL_SIZE
    ensures d.select < rate && MIN_WHEEL_SIZE + SIZE_SHIFT <= s <= MAX_WHEEL_SIZE - SIZE_SHIFT ==>
      -SIZE_SHIFT <= r - s <= SIZE_SHIFT
  {
    if d.select < rate then
      Constrain(s + RandomBetween(d.dx, -SIZE_SHIFT, SIZE_SHIFT), MIN_WHEEL_SIZE, MAX_WHEEL_SIZE)
    else s
  }

  /** The genome `mutate` leaves behind: every gene mutated independently. */
  function Mutated(g: Genome, rate: real, d: MutationDraws): (m: Genome)
    requires MutationFits(g, d)
  {
    Genome(
      seq(|g.chassisVertices|, i requires 0 <= i < |g.chassisVertices| =>
        MutatePoint(g.chassisVertices[i], d.chassis[i], rate)),
      seq(|g.wheelSizes|, i requires 0 <= i < |g.wheelSizes| =>
        MutateSize(g.wheelSizes[i], d.sizes[i], rate)),
      seq(|g.wheelPositions|, i requires 0 <= i < |g.wheelPositions| =>
        MutatePoint(g.wheelPositions[i], d.positions[i], rate)))
  }

  /**
   * `mutate`: walks the three gene lists in order and overwrites each
   * selected gene with its perturbed value.
   */
  method Mutate(g: Genome, rate: real, d: MutationDraws) returns (m: Genome)
    requires MutationFits(g, d)
    ensures m == Mutated(g, rate, d)
  {
    var vertices := g.chassisVertices;
    var i := 0;
    while i < |vertices|
      invariant 0 <= i <= |vertices| == |g.chassisVertices|
      invariant forall j :: 0 <= j < i ==> vertices[j] == MutatePoint(g.chassisVertices[j], d.chassis[j], rate)
      invariant forall j :: i <= j < |vertices| ==> vertices[j] == g.chassisVertices[j]
    {
      if d.chassis[i].select < rate {
        var v := vertices[i];
        v := v.(x := v.x + RandomBetween(d.chassis[i].dx, -POINT_SHIFT, POINT_SHIFT));
        v := v.(y := v.y + RandomBetween(d.chassis[i].dy, -POINT_SHIFT, POINT_SHIFT));
        vertices := vertices[i := v];
      }
      i := i + 1;
    }

    var sizes := g.wheelSizes;
    i := 0;
    while i < |sizes|
      invariant 0 <= i <= |sizes| == |g.wheelSizes|
      invariant forall j :: 0 <= j < i ==> sizes[j] == MutateSize(g.wheelSizes[j], d.sizes[j], rate)
      invariant forall j :: i <= j < |sizes| ==> sizes[j] == g.wheelSizes[j]
    {
      if d.sizes[i].select < rate {
        sizes := sizes[i := sizes[i] + RandomBetween(d.sizes[i].dx, -SIZE_SHIFT, SIZE_SHIFT)];
        sizes := sizes[i := Constrain(sizes[i], MIN_WHEEL_SIZE, MAX_WHEEL_SIZE)];
      }
      i := i + 1;
    }

    var positions := g.wheelPositions;
    i := 0;
    while i < |positions|
      invariant 0 <= i <= |positions| == |g.wheelPositions|
      invariant forall j :: 0 <= j < i ==> positions[j] == MutatePoint(g.wheelPositions[j], d.positions[j], rate)
      invariant forall j :: i <= j < |positions| ==> positions[j] == g.wheelPositions[j]
    {
      if d.positions[i].select < rate {
        var p := positions[i];
        p := p.(x := p.x + RandomBetween(d.positions[i].dx, -POINT_SHIFT, POINT_SHIFT));
        p := p.(y := p.y + RandomBetween(d.positions[i].dy, -POINT_SHIFT, POINT_SHIFT));
        positions := positions[i := p];
      }
      i := i + 1;
    }

    m := Genome(vertices, sizes, positions);
  }

  /**
   * Mutation keeps every gene list's length; each gene either stays as it
   * was or (vertices and positions) moves by at most 0.05 per coordinate,
   * (wheel sizes) lands in [0.05, 0.4].
   */
  lemma MutatedBounds(g: Genome, rate: real, d: MutationDraws)
    requires MutationFits(g, d)
    ensures var m := Mutated(g, rate, d);
      && |m.chassisVertices| == |g.chassisVertices|
      && |m.wheelSizes| == |g.wheelSizes|
      && |m.wheelPositions| == |g.wheelPositions|
      && (forall i :: 0 <= i < |m.chassisVertices| ==>
            (d.chassis[i].select >= rate ==> m.chassisVertices[i] == g.chassisVertices[i])
            && -POINT_SHIFT <= m.chassisVertices[i].x - g.chassisVertices[i].x <= POINT_SHIFT
            && -POINT_SHIFT <= m.chassisVertices[i].y - g.chassisVertices[i].y <= POINT_SHIFT)
      && (forall i :: 0 <= i < |m.wheelSizes| ==>
            if d.sizes[i].select < rate then MIN_WHEEL_SIZE <= m.wheelSizes[i] <= MAX_WHEEL_SIZE
            else m.wheelSizes[i] == g.wheelSizes[i])
      && (forall i :: 0 <= i < |m.wheelPositions| ==>
            (d.positions[i].select >= rate ==> m.wheelPositions[i] == g.wheelPositions[i])
            && -POINT_SHIFT <= m.wheelPositions[i].x - g.wheelPositions[i].x <= POINT_SHIFT
            && -POINT_SHIFT <= m.wheelPositions[i].y - g.wheelPositions[i].y <= POINT_SHIFT)
  {
  }

  /** Mutation at rate 0 (or below) is the identity: no draw is below it. */
  lemma MutatedAtRateZero(g: Genome, rate: real, d: MutationDraws)
    requires MutationFits(g, d) && rate <= 0.0
    ensures Mutated(g, rate, d) == g
  {
    var m := Mutated(g, rate, d);
    assert m.chassisVertices == g.chassisVertices;
    assert m.wheelSizes == g.wheelSizes;
    assert m.wheelPositions == g.wheelPositions;
  }

  /**
   * At rate 1 (or above) every gene is selected: every chassis vertex and
   * wheel position moves by its drawn offsets, and every wheel size moves
   * by its drawn offset and is clamped, so it ends in [0.05, 0.4].
   */
  lemma MutatedAtRateOne(g: Genome, rate: real, d: MutationDraws)
    requires MutationFits(g, d) && rate >= 1.0
    ensures var m := Mutated(g, rate, d);
      && (forall i :: 0 <= i < |m.chassisVertices| ==>
            m.chassisVertices[i] == Vec2(g.chassisVertices[i].x + RandomBetween(d.chassis[i].dx, -POINT_SHIFT, POINT_SHIFT),
                                         g.chassisVertices[i].y + RandomBetween(d.chassis[i].dy, -POINT_SHIFT, POINT_SHIFT)))
      && (forall i :: 0 <= i < |m.wheelSizes| ==>
            m.wheelSizes[i] == Constrain(g.wheelSizes[i] + RandomBetween(d.sizes[i].dx, -SIZE_SHIFT, SIZE_SHIFT),
                                         MIN_WHEEL_SIZE, MAX_WHEEL_SIZE))
      && (forall i :: 0 <= i < |m.wheelSizes| ==> MIN_WHEEL_SIZE <= m.wheelSizes[i] <= MAX_WHEEL_SIZE)
      && (forall i :: 0 <= i < |m.wheelPositions| ==>
            m.wheelPositions[i] == Vec2(g.wheelPositions[i].x + RandomBetween(d.positions[i].dx, -POINT_SHIFT, POINT_SHIFT),
                                        g.wheelPositions[i].y + RandomBetween(d.positions[i].dy, -POINT_SHIFT, POINT_SHIFT)))
  {
  }
}
