/**
 * The heightfield formulas of Main-Project/script/main.js: the first
 * canvas width of terrain, and the extensions whose amplitude and noise
 * frequency grow with the distance already covered. The mutable terrain
 * (`terrainVertices`, `start`) lives in `Evolution.Simulation`.
 */
module Terrain {
  import opened Vectors
  import opened Heightfield

  /** The canvas, `createCanvas(800, 400)`. */
  const WIDTH: nat := 800
  const HEIGHT: real := 400.0

  /** Noise increment per pixel column of the initial terrain. */
  const INC: real := 0.0035

  /** `difficulty` for an extension whose frontier vertex is at `lastX` metres. */
  function Difficulty(lastX: real): real {
    lastX * 0.004
  }

  function Amplitude(lastX: real): real {
    HEIGHT * 0.5 + HEIGHT * Difficulty(lastX)
  }

  function Frequency(lastX: real): real {
    INC + Difficulty(lastX) * 0.0005
  }

  /**
   * What `generateTerrain` pushes: pixel columns 0 .. WIDTH - 1, with the
   * noise sampled from `start` in steps of INC and amplitude HEIGHT / 2.
   */
  function InitialTerrain(start: real, noise: real -> real): (vs: seq<Vec2>)
    ensures |vs| == WIDTH
    ensures forall i :: 0 <= i < WIDTH ==> vs[i].x * SCALE == i as real
  {
    ColumnsContiguous(0.0, WIDTH, start, INC, HEIGHT * 0.5, HEIGHT, noise);
    Columns(0.0, WIDTH, start, INC, HEIGHT * 0.5, HEIGHT, noise)
  }

  /**
   * What `generateMoreTerrain` pushes after the frontier vertex `last`:
   * the pixel columns strictly between `last.x * SCALE` and
   * `last.x * SCALE + WIDTH`, with the noise sampled from
   * `start + last.x * INC * SCALE` in steps of `Frequency(last.x)`.
   */
  function MoreTerrain(last: Vec2, start: real, noise: real -> real): (vs: seq<Vec2>)
    ensures |vs| == WIDTH - 1
    ensures forall k :: 0 <= k < WIDTH - 1 ==> vs[k].x * SCALE == last.x * SCALE + 1.0 + k as real
  {
    ColumnsContiguous(last.x * SCALE + 1.0, WIDTH - 1, start + last.x * INC * SCALE,
                      Frequency(last.x), Amplitude(last.x), HEIGHT, noise);
    Columns(last.x * SCALE + 1.0, WIDTH - 1, start + last.x * INC * SCALE,
            Frequency(last.x), Amplitude(last.x), HEIGHT, noise)
  }

  /**
   * The initial terrain fills one canvas width: WIDTH vertices at
   * x = i / SCALE, strictly increasing, each at a height in
   * [0.25 * HEIGHT / SCALE, 0.75 * HEIGHT / SCALE].
   */
  lemma InitialTerrainShape(start: real, noise: real -> real)
    requires NoiseInRange(noise)
    ensures var vs := InitialTerrain(start, noise);
      && |vs| == WIDTH
      && (forall i :: 0 <= i < WIDTH ==> vs[i].x == i as real / SCALE)
      && StrictlyIncreasingX(vs)
      && forall i :: 0 <= i < WIDTH ==> 0.25 * HEIGHT / SCALE <= vs[i].y <= 0.75 * HEIGHT / SCALE
  {
    ColumnsContiguous(0.0, WIDTH, start, INC, HEIGHT * 0.5, HEIGHT, noise);
    ColumnsHeights(0.0, WIDTH, start, INC, HEIGHT * 0.5, HEIGHT, noise);
  }

  /**
   * An extension appends WIDTH - 1 vertices at consecutive pixel columns,
   * the first one pixel after the frontier; the terrain stays strictly
   * increasing in x across the join.
   */
  lemma MoreTerrainContiguous(vs: seq<Vec2>, start: real, noise: real -> real)
    requires 0 < |vs| && StrictlyIncreasingX(vs)
    ensures var more := MoreTerrain(vs[|vs| - 1], start, noise);
      && |more| == WIDTH - 1
      && (forall k :: 0 <= k < |more| ==> more[k].x * SCALE == vs[|vs| - 1].x * SCALE + 1.0 + k as real)
      && StrictlyIncreasingX(vs + more)
  {
    var last := vs[|vs| - 1];
    var firstPx := last.x * SCALE + 1.0;
    ColumnsContiguous(firstPx, WIDTH - 1, start + last.x * INC * SCALE, Frequency(last.x), Amplitude(last.x), HEIGHT, noise);
    AppendColumnsIncreasing(vs, firstPx, WIDTH - 1, start + last.x * INC * SCALE, Frequency(last.x), Amplitude(last.x), HEIGHT, noise);
  }

  /**
   * Difficulty never decreases along the terrain: an extension further
   * right has at least the amplitude and the noise frequency of one
   * nearer the start.
   */
  lemma DifficultyMonotone(x1: real, x2: real)
    requires x1 <= x2
    ensures Amplitude(x1) <= Amplitude(x2) && Frequency(x1) <= Frequency(x2)
  {
  }

  /**
   * An extension at a non-negative frontier never rises above the initial
   * terrain's highest level, and reaches down by at most its amplitude.
   */
  lemma MoreTerrainHeights(last: Vec2, start: real, noise: real -> real)
    requires NoiseInRange(noise) && last.x >= 0.0
    ensures var more := MoreTerrain(last, start, noise);
      forall k :: 0 <= k < |more| ==>
        (0.75 * HEIGHT - Amplitude(last.x)) / SCALE <= more[k].y <= 0.75 * HEIGHT / SCALE
  {
    ColumnsHeights(last.x * SCALE + 1.0, WIDTH - 1, start + last.x * INC * SCALE,
                   Frequency(last.x), Amplitude(last.x), HEIGHT, noise);
  }

  /**
   * The extension test in `draw`: the leading car's pixel position is
   * within one canvas width of the frontier's pixel column.
   */
  predicate NeedsMoreTerrain(carPositionX: real, vs: seq<Vec2>)
    requires 0 < |vs|
  {
    carPositionX > vs[|vs| - 1].x * SCALE - WIDTH as real
  }

  /**
   * The extension test asks for more terrain for a car further right
   * whenever it does for one nearer the start, and a terrain that only
   * grew to the right never asks where the shorter one did not.
   */
  lemma NeedsMoreTerrainMonotone(x1: real, x2: real, vs: seq<Vec2>, more: seq<Vec2>)
    requires 0 < |vs| && StrictlyIncreasingX(vs + more)
    ensures x1 <= x2 && NeedsMoreTerrain(x1, vs) ==> NeedsMoreTerrain(x2, vs)
    ensures NeedsMoreTerrain(x1, vs + more) ==> NeedsMoreTerrain(x1, vs)
  {
    if more != [] {
      assert (vs + more)[|vs| - 1] == vs[|vs| - 1];
      assert (vs + more)[|vs + more| - 1] == more[|more| - 1];
    }
  }
}
