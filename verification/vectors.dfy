/**
 * Plane vectors, and the few p5 helpers the simulation leans on: the
 * random draws (given here as explicit values of p5's `random()`, which
 * lie in [0, 1)) and `constrain`.
 */
module Vectors {

  /** A planck `Vec2` (or a plain `{x, y}` record), as a value. */
  datatype Vec2 = Vec2(x: real, y: real)

  function Add(a: Vec2, b: Vec2): Vec2 {
    Vec2(a.x + b.x, a.y + b.y)
  }

  function Scale(a: Vec2, k: real): Vec2 {
    Vec2(a.x * k, a.y * k)
  }
}

module Draws {

  /** A value p5's `random()` can return. */
  predicate IsUnit(u: real) {
    0.0 <= u < 1.0
  }

  function Min(a: real, b: real): real { if a <= b then a else b }

  function Max(a: real, b: real): real { if a <= b then b else a }

  /** A draw, scaled to the interval [a, b], stays inside it. */
  lemma Between(u: real, a: real, b: real)
    requires IsUnit(u) && a <= b
    ensures a <= u * (b - a) + a <= b
    ensures a < b ==> u * (b - a) + a < b
  {
    var w := b - a;
    MulNonNegative(u, w);
    MulNonNegative(1.0 - u, w);
    assert (1.0 - u) * w == w - u * w;
    if w > 0.0 {
      MulPositive(1.0 - u, w);
    }
  }

  lemma MulNonNegative(a: real, b: real)
    requires a >= 0.0 && b >= 0.0
    ensures a * b >= 0.0
  {}

  lemma MulPositive(a: real, b: real)
    requires a > 0.0 && b > 0.0
    ensures a * b > 0.0
  {}

  /**
   * p5's `random(lo, hi)` for the draw `u` of `random()`: the bounds are
   * swapped when given in decreasing order, and the result is
   * `u * (hi - lo) + lo`.
   */
  function RandomBetween(u: real, lo: real, hi: real): (r: real)
    requires IsUnit(u)
    ensures Min(lo, hi) <= r <= Max(lo, hi)
    ensures lo != hi ==> r < Max(lo, hi)
    ensures lo == hi ==> r == lo
  {
    Scaled(u, Min(lo, hi), Max(lo, hi))
  }

  /** The draw `u` scaled to [a, b]: `u * (b - a) + a`. */
  function Scaled(u: real, a: real, b: real): (r: real)
    requires IsUnit(u) && a <= b
    ensures a <= r <= b
    ensures a < b ==> r < b
  {
    Between(u, a, b);
    u * (b - a) + a
  }

  /**
   * The index p5's `random(array)` picks from an array of length `n` for
   * the draw `u`: `floor(u * n)`, always a valid index.
   */
  function RandomIndex(u: real, n: nat): (k: nat)
    requires IsUnit(u) && n > 0
    ensures k < n
  {
    Between(u, 0.0, n as real);
    assert u * (n as real - 0.0) + 0.0 == u * n as real;
    (u * n as real).Floor
  }

  /** p5's `constrain(v, lo, hi)`: `max(min(v, hi), lo)`. */
  function Constrain(v: real, lo: real, hi: real): (r: real)
    ensures lo <= hi ==> lo <= r <= hi
    ensures lo <= v <= hi ==> r == v
    ensures lo <= hi && v < lo ==> r == lo
    ensures lo <= hi && hi < v ==> r == hi
  {
    Max(Min(v, hi), lo)
  }
}

module Options {

  /** A value or nothing: JavaScript's `null` for a car that could not be built. */
  datatype Option<+T> = None | Some(value: T)
}
