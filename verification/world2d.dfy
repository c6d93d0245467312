/**
 * The single-car demo of 2dworld.js: its terrain globals (`terrainVertices`,
 * `start` and the ground rebuilt from them), the extension rule in `draw`
 * and the velocity-capped forward force. The car's bodies belong to the
 * physics engine; their position and velocity enter as inputs.
 */
module World2D {
  import opened Vectors
  import opened Heightfield

  /** The canvas, `createCanvas(400, 400)`. */
  const WIDTH: nat := 400
  const HEIGHT: real := 400.0

  /** Noise increment per pixel column. */
  const INC: real := 0.005

  /** `maxVelocity`, in metres per second. */
  const MAX_VELOCITY: real := 3.0

  /** The forward force `draw` pushes the car with when below the cap. */
  const DRIVE: Vec2 := Vec2(10.0, 0.0)

  /** What `generateTerrain` pushes: pixel columns 0 .. WIDTH - 1. */
  function InitialTerrain(start: real, noise: real -> real): (vs: seq<Vec2>)
    ensures |vs| == WIDTH
    ensures forall i :: 0 <= i < WIDTH ==> vs[i].x * SCALE == i as real
  {
    ColumnsContiguous(0.0, WIDTH, start, INC, HEIGHT * 0.5, HEIGHT, noise);
    Columns(0.0, WIDTH, start, INC, HEIGHT * 0.5, HEIGHT, noise)
  }

  /**
   * What `generateMoreTerrain` pushes after the frontier vertex `last`:
   * the pixel columns strictly between `last.x * SCALE` and
   * `last.x * SCALE + WIDTH`, noise sampled from `start + last.x * INC * SCALE`.
   */
  function MoreTerrain(last: Vec2, start: real, noise: real -> real): (vs: seq<Vec2>)
    ensures |vs| == WIDTH - 1
    ensures forall k :: 0 <= k < WIDTH - 1 ==> vs[k].x * SCALE == last.x * SCALE + 1.0 + k as real
  {
    ColumnsContiguous(last.x * SCALE + 1.0, WIDTH - 1, start + last.x * INC * SCALE, INC, HEIGHT * 0.5, HEIGHT, noise);
    Columns(last.x * SCALE + 1.0, WIDTH - 1, start + last.x * INC * SCALE, INC, HEIGHT * 0.5, HEIGHT, noise)
  }

  /** The height band every vertex of this terrain lies in. */
  predicate InBand(v: Vec2) {
    0.25 * HEIGHT / SCALE <= v.y <= 0.75 * HEIGHT / SCALE
  }

  /**
   * Both generators keep every vertex in the band
   * [0.25 * HEIGHT / SCALE, 0.75 * HEIGHT / SCALE] when the noise lies in [0, 1].
   */
  lemma GeneratedInBand(firstPx: real, count: nat, xoff: real, noise: real -> real)
    requires NoiseInRange(noise)
    ensures var vs := Columns(firstPx, count, xoff, INC, HEIGHT * 0.5, HEIGHT, noise);
      forall k :: 0 <= k < |vs| ==> InBand(vs[k])
  {
    ColumnsHeights(firstPx, count, xoff, INC, HEIGHT * 0.5, HEIGHT, noise);
  }

  /**
   * The demo's terrain invariant: a non-empty heightfield starting at
   * x = 0, strictly increasing in x, inside the height band.
   */
  ghost predicate ValidTerrain(vs: seq<Vec2>) {
    && 0 < |vs|
    && vs[0].x == 0.0
    && StrictlyIncreasingX(vs)
    && forall i :: 0 <= i < |vs| ==> InBand(vs[i])
  }

  /** The initial terrain satisfies the invariant. */
  lemma InitialTerrainValid(noise: real -> real)
    requires NoiseInRange(noise)
    ensures ValidTerrain(InitialTerrain(0.0, noise))
  {
    ColumnsContiguous(0.0, WIDTH, 0.0, INC, HEIGHT * 0.5, HEIGHT, noise);
    GeneratedInBand(0.0, WIDTH, 0.0, noise);
  }

  /**
   * An extension keeps the invariant, leaves the existing vertices as they
   * were, and moves the frontier (WIDTH - 1) / SCALE metres forward.
   */
  lemma ExtensionKeepsInvariant(vs: seq<Vec2>, start: real, noise: real -> real)
    requires ValidTerrain(vs) && NoiseInRange(noise)
    ensures var all := vs + MoreTerrain(vs[|vs| - 1], start, noise);
      && ValidTerrain(all)
      && all[..|vs|] == vs
      && all[|all| - 1].x == vs[|vs| - 1].x + (WIDTH - 1) as real / SCALE
  {
    var last := vs[|vs| - 1];
    var firstPx := last.x * SCALE + 1.0;
    var xoff := start + last.x * INC * SCALE;
    var more := MoreTerrain(last, start, noise);
    ColumnsContiguous(firstPx, WIDTH - 1, xoff, INC, HEIGHT * 0.5, HEIGHT, noise);
    AppendColumnsIncreasing(vs, firstPx, WIDTH - 1, xoff, INC, HEIGHT * 0.5, HEIGHT, noise);
    GeneratedInBand(firstPx, WIDTH - 1, xoff, noise);
    var all := vs + more;
    assert all[..|vs|] == vs;
    assert all[|all| - 1] == more[WIDTH - 2];
    forall i | 0 <= i < |all| ensures InBand(all[i]) {
      if i >= |vs| {
        assert all[i] == more[i - |vs|];
      }
    }
  }

  /**
   * The force rule of `draw`: the car is pushed forward by DRIVE exactly
   * when its x-velocity is below the cap; otherwise no force (zero) is applied.
   */
  function DriveForce(currentVelocity: real): (f: Vec2)
    ensures f.y == 0.0
    ensures f.x > 0.0 <==> currentVelocity < MAX_VELOCITY
    ensures f == DRIVE || f == Vec2(0.0, 0.0)
  {
    if currentVelocity < MAX_VELOCITY then DRIVE else Vec2(0.0, 0.0)
  }

  class DemoWorld {
    var vertices: seq<Vec2>
    var start: real
    /** The edges of the ground body most recently built by `createGround`. */
    var ground: seq<Edge>

    /**
     * The terrain invariant: a non-empty heightfield starting at x = 0,
     * strictly increasing in x, inside the height band, with the ground
     * built from all of it.
     */
    ghost predicate Valid()
      reads this
    {
      ValidTerrain(vertices) && IsGroundOf(ground, vertices)
    }

    function Frontier(): real
      reads this
      requires 0 < |vertices|
    {
      vertices[|vertices| - 1].x
    }

    /** `setup`'s terrain part: generate one canvas width, then build the ground. */
    constructor (noise: real -> real)
      requires NoiseInRange(noise)
      ensures Valid()
      ensures vertices == InitialTerrain(0.0, noise) && start == INC
    {
      vertices, start, ground := [], 0.0, [];
      new;
      GenerateTerrain(noise);
      CreateGround();
      InitialTerrainValid(noise);
    }

    /** `generateTerrain`: pushes pixel columns 0 .. WIDTH - 1, then advances `start` by INC. */
    method GenerateTerrain(noise: real -> real)
      modifies this
      ensures vertices == old(vertices) + InitialTerrain(old(start), noise)
      ensures start == old(start) + INC
      ensures ground == old(ground)
    {
      var xoff := start;
      var x := 0;
      while x < WIDTH
        invariant 0 <= x <= WIDTH
        invariant xoff == old(start) + x as real * INC
        invariant start == old(start) && ground == old(ground)
        invariant vertices == old(vertices) + Columns(0.0, x, old(start), INC, HEIGHT * 0.5, HEIGHT, noise)
      {
        var y := noise(xoff) * (HEIGHT * 0.5) + HEIGHT * 0.25;
        ColumnsSnoc(0.0, x, old(start), INC, HEIGHT * 0.5, HEIGHT, noise);
        assert 0.0 + x as real == x as real && old(start) + x as real * INC == xoff;
        assert Vec2(x as real / SCALE, (HEIGHT - y) / SCALE) == Column(0.0, x, old(start), INC, HEIGHT * 0.5, HEIGHT, noise);
        vertices := vertices + [Vec2(x as real / SCALE, (HEIGHT - y) / SCALE)];
        xoff := xoff + INC;
        x := x + 1;
      }
      start := start + INC;
    }

    /**
     * `generateMoreTerrain`: pushes the pixel columns strictly between the
     * frontier's column and one canvas width further, then advances `start`
     * by INC.
     */
    method GenerateMoreTerrain(noise: real -> real)
      requires 0 < |vertices|
      modifies this
      ensures vertices == old(vertices) + MoreTerrain(old(vertices)[|old(vertices)| - 1], old(start), noise)
      ensures start == old(start) + INC
      ensures ground == old(ground)
    {
      var lastVertex := vertices[|vertices| - 1];
      var xoff := start + lastVertex.x * INC * SCALE;
      var firstPx := lastVertex.x * SCALE + 1.0;
      var x := firstPx;
      ghost var k: nat := 0;
      while x < lastVertex.x * SCALE + WIDTH as real
        invariant x == firstPx + k as real && k <= WIDTH - 1
        invariant xoff == old(start) + lastVertex.x * INC * SCALE + k as real * INC
        invariant start == old(start) && ground == old(ground)
        invariant vertices == old(vertices) + Columns(firstPx, k, old(start) + lastVertex.x * INC * SCALE, INC, HEIGHT * 0.5, HEIGHT, noise)
        decreases WIDTH - k
      {
        var y := noise(xoff) * (HEIGHT * 0.5) + HEIGHT * 0.25;
        ColumnsSnoc(firstPx, k, old(start) + lastVertex.x * INC * SCALE, INC, HEIGHT * 0.5, HEIGHT, noise);
        vertices := vertices + [Vec2(x / SCALE, (HEIGHT - y) / SCALE)];
        xoff := xoff + INC;
        x := x + 1.0;
        k := k + 1;
      }
      start := start + INC;
    }

    /** `createGround`: a new ground body with one edge per neighbouring pair. */
    method CreateGround()
      modifies this
      ensures IsGroundOf(ground, vertices)
      ensures vertices == old(vertices) && start == old(start)
    {
      ground := Heightfield.CreateGround(vertices);
    }

    /**
     * The terrain step at the end of `draw`: when the frontier's pixel
     * column is less than one canvas width ahead of the car, extend the
     * terrain and rebuild the ground. Each extension moves the frontier
     * (WIDTH - 1) / SCALE metres forward and keeps the terrain invariant.
     */
    method ExtendIfNeeded(carScreenX: real, noise: real -> real) returns (extended: bool)
      requires Valid() && NoiseInRange(noise)
      modifies this
      ensures Valid()
      ensures extended <==> old(Frontier()) * SCALE < carScreenX + WIDTH as real
      ensures extended ==> Frontier() == old(Frontier()) + (WIDTH - 1) as real / SCALE
      ensures extended ==> vertices == old(vertices) + MoreTerrain(old(vertices)[|old(vertices)| - 1], old(start), noise)
      ensures extended ==> start == old(start) + INC
      ensures !extended ==> vertices == old(vertices) && start == old(start) && ground == old(ground)
    {
      extended := vertices[|vertices| - 1].x * SCALE < carScreenX + WIDTH as real;
      if extended {
        ExtensionKeepsInvariant(vertices, start, noise);
        GenerateMoreTerrain(noise);
        CreateGround();
      }
    }
  }
}
