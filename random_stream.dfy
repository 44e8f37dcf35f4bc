/**
 * A seeded std::default_random_engine, seen through the distributions that
 * read it. The engine is the infinite stream of unit draws it yields, in
 * order; a distribution turns the next draw into a value of its range.
 * Seeding the engine from the clock selects the stream, so the stream is what
 * the caller passes in.
 */
module RandomStream {

  import opened RealArith

  type Stream = nat -> real

  /** Every draw of the stream lies in [0, 1). */
  ghost predicate UnitValued(s: Stream) {
    forall i: nat :: 0.0 <= s(i) < 1.0
  }

  /** std::uniform_real_distribution<float>(lo, hi) applied to the unit draw `u`. */
  function Uniform(lo: real, hi: real, u: real): (r: real)
    requires lo <= hi && 0.0 <= u < 1.0
    ensures lo <= r <= hi
    ensures lo < hi ==> r < hi
  {
    var width := hi - lo;
    UnitScaleBounds(width, u);
    lo + width * u
  }

  /** std::uniform_int_distribution<int>(lo, hi) applied to the unit draw `u`. */
  function UniformInt(lo: int, hi: int, u: real): (r: int)
    requires lo <= hi && 0.0 <= u < 1.0
    ensures lo <= r <= hi
  {
    var width := (hi - lo + 1) as real;
    assert 0.0 <= u * width < width;
    lo + (u * width).Floor
  }
}
