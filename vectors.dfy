/**
 * The two-component vectors (glm::vec2) the simulation works with, over the
 * reals. Lengths are never taken: a test `length(v) < bound` is decided on the
 * squared length instead, and `ShorterThanIsLengthTest` shows the two agree.
 */
module Vectors {

  import opened RealArith

  datatype Vec2 = Vec2(x: real, y: real)

  function Add(a: Vec2, b: Vec2): Vec2 {
    Vec2(a.x + b.x, a.y + b.y)
  }

  function Sub(a: Vec2, b: Vec2): Vec2 {
    Vec2(a.x - b.x, a.y - b.y)
  }

  function Scale(v: Vec2, k: real): Vec2 {
    Vec2(v.x * k, v.y * k)
  }

  /** The square of glm::length(v). */
  function LengthSquared(v: Vec2): (sq: real)
    ensures sq >= 0.0
  {
    v.x * v.x + v.y * v.y
  }

  /** The square of glm::distance(a, b). */
  function DistanceSquared(a: Vec2, b: Vec2): (sq: real)
    ensures sq >= 0.0
    ensures sq == LengthSquared(Sub(b, a))
  {
    LengthSquared(Sub(a, b))
  }

  /** `len < bound`, where `len` is the non-negative square root of `sq`. */
  predicate ShorterThan(sq: real, bound: real) {
    0.0 < bound && sq < bound * bound
  }

  /** Comparing squares decides the comparison of the lengths themselves. */
  lemma ShorterThanIsLengthTest(len: real, sq: real, bound: real)
    requires 0.0 <= len && len * len == sq
    ensures ShorterThan(sq, bound) <==> len < bound
  {
    if 0.0 < bound {
      if len < bound {
        ProductNonNegative(len, bound - len);
        ProductPositive(bound, bound - len);
      } else {
        ProductNonNegative(bound, len - bound);
        ProductNonNegative(len, len - bound);
      }
    }
  }
}
