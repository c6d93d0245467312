/**
 * The terrain heightfield as both simulations keep it: an ordered list of
 * vertices in world units (metres), the height lookup `getYPositionAtX`
 * and the ground built from it by `createGround`. Main-Project/script/main.js
 * and 2dworld.js carry identical copies of `getYPositionAtX`; their
 * `createGround` routines differ in the body they attach the edges to (a
 * global body with collision filter bits in main.js, a local one with
 * friction only in 2dworld.js) but build the same edge list, which is all
 * the model keeps.
 */
module Heightfield {
  import opened Vectors
  import opened Draws

  /** Pixels per metre, in both simulations. */
  const SCALE: real := 30.0

  /** The terrain invariant: vertex x-coordinates strictly increase. */
  predicate StrictlyIncreasingX(vs: seq<Vec2>) {
    forall i, j :: 0 <= i < j < |vs| ==> vs[i].x < vs[j].x
  }

  /** Segment `i` (from vertex `i` to vertex `i + 1`) spans `x`. */
  predicate Brackets(vs: seq<Vec2>, i: nat, x: real)
    requires i + 1 < |vs|
  {
    vs[i].x <= x <= vs[i + 1].x
  }

  /** Segment `k` is the first segment that spans `x`. */
  predicate IsFirstBracket(vs: seq<Vec2>, x: real, k: nat) {
    && k + 1 < |vs|
    && Brackets(vs, k, x)
    && forall j :: 0 <= j < k ==> !Brackets(vs, j, x)
  }

  /** No segment spans `x`. */
  predicate NoBracket(vs: seq<Vec2>, x: real) {
    forall j :: 0 <= j < |vs| - 1 ==> !Brackets(vs, j, x)
  }

  /** The straight line through `a` and `b`, evaluated at `x`. */
  function Lerp(a: Vec2, b: Vec2, x: real): real
    requires a.x != b.x
  {
    a.y + ((b.y - a.y) * (x - a.x)) / (b.x - a.x)
  }

  /**
   * The height the search of `getYPositionAtX` reports when it starts at
   * segment `i`: the interpolation along the first spanning segment from
   * `i` on, or the last vertex's height when there is none.
   */
  function HeightFrom(vs: seq<Vec2>, x: real, i: nat): real
    requires 0 < |vs| && i < |vs| && StrictlyIncreasingX(vs)
    decreases |vs| - i
  {
    if i == |vs| - 1 then vs[|vs| - 1].y
    else if Brackets(vs, i, x) then Lerp(vs[i], vs[i + 1], x)
    else HeightFrom(vs, x, i + 1)
  }

  /** The terrain height at `x`. */
  function HeightAt(vs: seq<Vec2>, x: real): real
    requires 0 < |vs| && StrictlyIncreasingX(vs)
  {
    HeightFrom(vs, x, 0)
  }

  /**
   * `getYPositionAtX`: scans the segments left to right and interpolates
   * along the first one that spans `x`; with none, the last vertex's height.
   */
  method GetYPositionAtX(vs: seq<Vec2>, x: real) returns (y: real)
    requires 0 < |vs| && StrictlyIncreasingX(vs)
    ensures y == HeightAt(vs, x)
  {
    var i := 0;
    while i < |vs| - 1
      invariant 0 <= i <= |vs| - 1
      invariant HeightFrom(vs, x, i) == HeightAt(vs, x)
    {
      if vs[i].x <= x && vs[i + 1].x >= x {
        var x1, y1 := vs[i].x, vs[i].y;
        var x2, y2 := vs[i + 1].x, vs[i + 1].y;
        assert Brackets(vs, i, x);
        assert HeightFrom(vs, x, i) == Lerp(vs[i], vs[i + 1], x);
        return y1 + ((y2 - y1) * (x - x1)) / (x2 - x1);
      }
      i := i + 1;
    }
    return vs[|vs| - 1].y;
  }

  lemma {:induction false} HeightFromFirstBracket(vs: seq<Vec2>, x: real, i: nat, k: nat)
    requires 0 < |vs| && StrictlyIncreasingX(vs)
    requires i <= k && IsFirstBracket(vs, x, k)
    ensures HeightFrom(vs, x, i) == Lerp(vs[k], vs[k + 1], x)
    decreases k - i
  {
    if i < k {
      HeightFromFirstBracket(vs, x, i + 1, k);
    }
  }

  /** The height is the interpolation along the first segment spanning `x`. */
  lemma HeightAtFirstBracket(vs: seq<Vec2>, x: real, k: nat)
    requires 0 < |vs| && StrictlyIncreasingX(vs)
    requires IsFirstBracket(vs, x, k)
    ensures HeightAt(vs, x) == Lerp(vs[k], vs[k + 1], x)
  {
    HeightFromFirstBracket(vs, x, 0, k);
  }

  lemma {:induction false} HeightFromNoBracket(vs: seq<Vec2>, x: real, i: nat)
    requires 0 < |vs| && i < |vs| && StrictlyIncreasingX(vs)
    requires NoBracket(vs, x)
    ensures HeightFrom(vs, x, i) == vs[|vs| - 1].y
    decreases |vs| - i
  {
    if i < |vs| - 1 {
      HeightFromNoBracket(vs, x, i + 1);
    }
  }

  /** Off the spanned range the height is the last vertex's. */
  lemma HeightAtNoBracket(vs: seq<Vec2>, x: real)
    requires 0 < |vs| && StrictlyIncreasingX(vs)
    requires NoBracket(vs, x)
    ensures HeightAt(vs, x) == vs[|vs| - 1].y
  {
    HeightFromNoBracket(vs, x, 0);
  }

  /**
   * The interpolation lies between the segment's end heights and meets
   * them at the segment's ends.
   */
  lemma LerpBetween(a: Vec2, b: Vec2, x: real)
    requires a.x < b.x && a.x <= x <= b.x
    ensures Min(a.y, b.y) <= Lerp(a, b, x) <= Max(a.y, b.y)
    ensures x == a.x ==> Lerp(a, b, x) == a.y
    ensures x == b.x ==> Lerp(a, b, x) == b.y
  {
    FractionBetween(b.y - a.y, x - a.x, b.x - a.x);
  }

  /** The fraction `h * s / d` of `h`, for `s` within [0, d], lies between 0 and `h`. */
  lemma FractionBetween(h: real, s: real, d: real)
    requires d > 0.0 && 0.0 <= s <= d
    ensures Min(0.0, h) <= (h * s) / d <= Max(0.0, h)
    ensures s == 0.0 ==> (h * s) / d == 0.0
    ensures s == d ==> (h * s) / d == h
  {
    assert ((h * s) / d) * d == h * s;
    if h >= 0.0 {
      MulNonNegative(h, s);
      MulNonNegative(h, d - s);
    } else {
      MulNonNegative(-h, s);
      MulNonNegative(-h, d - s);
    }
  }

  /** Every x that lies between the first and the last vertex is spanned. */
  lemma {:induction false} CoveredIsBracketed(vs: seq<Vec2>, x: real, i: nat) returns (k: nat)
    requires 0 < |vs| && StrictlyIncreasingX(vs)
    requires i < |vs| - 1 && vs[i].x <= x <= vs[|vs| - 1].x
    requires forall j :: 0 <= j < i ==> !Brackets(vs, j, x)
    ensures IsFirstBracket(vs, x, k)
    decreases |vs| - i
  {
    if Brackets(vs, i, x) {
      k := i;
    } else {
      k := CoveredIsBracketed(vs, x, i + 1);
    }
  }

  /**
   * Over the terrain's extent, the height is an interpolation between the
   * two vertices of some segment, so it never leaves their range.
   */
  lemma HeightAtWithinSegment(vs: seq<Vec2>, x: real) returns (k: nat)
    requires 1 < |vs| && StrictlyIncreasingX(vs)
    requires vs[0].x <= x <= vs[|vs| - 1].x
    ensures IsFirstBracket(vs, x, k)
    ensures Min(vs[k].y, vs[k + 1].y) <= HeightAt(vs, x) <= Max(vs[k].y, vs[k + 1].y)
  {
    k := CoveredIsBracketed(vs, x, 0);
    HeightAtFirstBracket(vs, x, k);
    LerpBetween(vs[k], vs[k + 1], x);
  }

  /** The interpolated surface passes through every terrain vertex. */
  lemma HeightAtVertex(vs: seq<Vec2>, k: nat)
    requires k < |vs| && StrictlyIncreasingX(vs)
    ensures HeightAt(vs, vs[k].x) == vs[k].y
  {
    var x := vs[k].x;
    if |vs| == 1 {
      HeightAtNoBracket(vs, x);
    } else if k == 0 {
      assert IsFirstBracket(vs, x, 0);
      HeightAtFirstBracket(vs, x, 0);
      LerpBetween(vs[0], vs[1], x);
    } else {
      forall j | 0 <= j < k - 1 ensures !Brackets(vs, j, x) {
        assert vs[j + 1].x < vs[k].x;
      }
      assert IsFirstBracket(vs, x, k - 1);
      HeightAtFirstBracket(vs, x, k - 1);
      LerpBetween(vs[k - 1], vs[k], x);
    }
  }

  /** p5's `noise()` stays within [0, 1]. */
  ghost predicate NoiseInRange(noise: real -> real) {
    forall t :: 0.0 <= noise(t) <= 1.0
  }

  /**
   * The vertices both terrain generators push: `count` consecutive pixel
   * columns starting at `firstPx`; column `k` samples the noise at
   * `xoff + k * step` (the loop adds `step` to `xoff` once per column),
   * and its height is `(height - (noise * amplitude + height * 0.25)) / SCALE`.
   */
  function Columns(firstPx: real, count: nat, xoff: real, step: real, amplitude: real,
                   height: real, noise: real -> real): (vs: seq<Vec2>)
    ensures |vs| == count
  {
    seq(count, k requires 0 <= k => Column(firstPx, k, xoff, step, amplitude, height, noise))
  }

  /** Column `k` of `Columns`. */
  function Column(firstPx: real, k: nat, xoff: real, step: real, amplitude: real,
                  height: real, noise: real -> real): Vec2
  {
    Vec2((firstPx + k as real) / SCALE,
         (height - (noise(xoff + k as real * step) * amplitude + height * 0.25)) / SCALE)
  }

  /** Pushing column `k` onto the first `k` columns gives the first `k + 1`. */
  lemma ColumnsSnoc(firstPx: real, k: nat, xoff: real, step: real, amplitude: real,
                    height: real, noise: real -> real)
    ensures Columns(firstPx, k + 1, xoff, step, amplitude, height, noise)
         == Columns(firstPx, k, xoff, step, amplitude, height, noise)
            + [Column(firstPx, k, xoff, step, amplitude, height, noise)]
  {
  }

  /**
   * Column `k` sits `k` pixels right of the first one, so the columns'
   * x-coordinates strictly increase.
   */
  lemma ColumnsContiguous(firstPx: real, count: nat, xoff: real, step: real, amplitude: real,
                          height: real, noise: real -> real)
    ensures var vs := Columns(firstPx, count, xoff, step, amplitude, height, noise);
      && (forall k :: 0 <= k < count ==> vs[k].x * SCALE == firstPx + k as real)
      && StrictlyIncreasingX(vs)
  {
  }

  /**
   * With noise in [0, 1] and a non-negative amplitude, every column's
   * height lies in [(0.75 * height - amplitude) / SCALE, 0.75 * height / SCALE].
   */
  lemma ColumnsHeights(firstPx: real, count: nat, xoff: real, step: real, amplitude: real,
                       height: real, noise: real -> real)
    requires NoiseInRange(noise) && amplitude >= 0.0
    ensures var vs := Columns(firstPx, count, xoff, step, amplitude, height, noise);
      forall k :: 0 <= k < count ==> (0.75 * height - amplitude) / SCALE <= vs[k].y <= 0.75 * height / SCALE
  {
    var vs := Columns(firstPx, count, xoff, step, amplitude, height, noise);
    forall k | 0 <= k < count
      ensures (0.75 * height - amplitude) / SCALE <= vs[k].y <= 0.75 * height / SCALE
    {
      var n := noise(xoff + k as real * step);
      assert 0.0 <= n <= 1.0;
      assert vs[k] == Column(firstPx, k, xoff, step, amplitude, height, noise);
      ColumnHeight(n, amplitude, height);
    }
  }

  lemma ColumnHeight(n: real, amplitude: real, height: real)
    requires 0.0 <= n <= 1.0 && amplitude >= 0.0
    ensures (0.75 * height - amplitude) / SCALE <= (height - (n * amplitude + height * 0.25)) / SCALE
    ensures (height - (n * amplitude + height * 0.25)) / SCALE <= 0.75 * height / SCALE
  {
    MulNonNegative(n, amplitude);
    MulNonNegative(1.0 - n, amplitude);
    assert (1.0 - n) * amplitude == amplitude - n * amplitude;
  }

  /**
   * Appending columns that start right of the current frontier keeps the
   * x-coordinates strictly increasing across the join.
   */
  lemma AppendColumnsIncreasing(vs: seq<Vec2>, firstPx: real, count: nat, xoff: real, step: real,
                                amplitude: real, height: real, noise: real -> real)
    requires 0 < |vs| && StrictlyIncreasingX(vs)
    requires vs[|vs| - 1].x * SCALE < firstPx
    ensures StrictlyIncreasingX(vs + Columns(firstPx, count, xoff, step, amplitude, height, noise))
  {
    var more := Columns(firstPx, count, xoff, step, amplitude, height, noise);
    ColumnsContiguous(firstPx, count, xoff, step, amplitude, height, noise);
    var all := vs + more;
    forall i, j | 0 <= i < j < |all| ensures all[i].x < all[j].x {
      if j >= |vs| {
        var k := j - |vs|;
        assert all[j] == more[k];
        assert all[j].x * SCALE >= firstPx;
        if i < |vs| {
          assert all[i] == vs[i];
          assert vs[i].x <= vs[|vs| - 1].x;
        } else {
          assert all[i] == more[i - |vs|];
        }
      } else {
        assert all[i] == vs[i] && all[j] == vs[j];
      }
    }
  }

  /** A ground fixture: one edge between two neighbouring vertices. */
  datatype Edge = Edge(v1: Vec2, v2: Vec2)

  /**
   * `edges` is the ground of `vs`: one edge per pair of neighbouring
   * vertices, edge `i` joining vertex `i` to vertex `i + 1`.
   */
  predicate IsGroundOf(edges: seq<Edge>, vs: seq<Vec2>) {
    && |edges| == (if |vs| == 0 then 0 else |vs| - 1)
    && forall i :: 0 <= i < |edges| ==> edges[i] == Edge(vs[i], vs[i + 1])
  }

  /** `createGround`: the edge fixtures of a fresh ground body. */
  method CreateGround(vs: seq<Vec2>) returns (edges: seq<Edge>)
    ensures IsGroundOf(edges, vs)
  {
    edges := [];
    var i := 0;
    while i < |vs| - 1
      invariant 0 <= i && (i <= |vs| - 1 || i == 0)
      invariant |edges| == i
      invariant forall j :: 0 <= j < i ==> edges[j] == Edge(vs[j], vs[j + 1])
    {
      edges := edges + [Edge(vs[i], vs[i + 1])];
      i := i + 1;
    }
  }

  /**
   * Rebuilding the ground after the terrain was extended keeps every old
   * edge and adds the edge across the join before the new ones.
   */
  lemma GroundOfExtension(old_edges: seq<Edge>, vs: seq<Vec2>, more: seq<Vec2>, edges: seq<Edge>)
    requires 0 < |vs| && 0 < |more|
    requires IsGroundOf(old_edges, vs) && IsGroundOf(edges, vs + more)
    ensures |edges| == |old_edges| + |more|
    ensures edges[..|old_edges|] == old_edges
    ensures edges[|old_edges|] == Edge(vs[|vs| - 1], more[0])
  {
    assert edges[..|old_edges|] == old_edges by {
      forall i | 0 <= i < |old_edges| ensures edges[i] == old_edges[i] {
        assert (vs + more)[i] == vs[i] && (vs + more)[i + 1] == vs[i + 1];
      }
    }
    var n := |old_edges|;
    assert edges[n] == Edge((vs + more)[n], (vs + more)[n + 1]);
    assert (vs + more)[n] == vs[|vs| - 1] && (vs + more)[n + 1] == more[0];
  }

  /** On valid terrain every ground edge runs strictly rightwards. */
  lemma GroundRunsRightwards(edges: seq<Edge>, vs: seq<Vec2>)
    requires IsGroundOf(edges, vs) && StrictlyIncreasingX(vs)
    ensures forall i :: 0 <= i < |edges| ==> edges[i].v1.x < edges[i].v2.x
    ensures forall i :: 0 <= i < |edges| - 1 ==> edges[i].v2 == edges[i + 1].v1
  {
    forall i | 0 <= i < |edges| ensures edges[i].v1.x < edges[i].v2.x {
      assert edges[i] == Edge(vs[i], vs[i + 1]);
    }
    forall i | 0 <= i < |edges| - 1 ensures edges[i].v2 == edges[i + 1].v1 {
      assert edges[i] == Edge(vs[i], vs[i + 1]);
      assert edges[i + 1] == Edge(vs[i + 1], vs[i + 2]);
    }
  }
}
