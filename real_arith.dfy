/** Sign facts about products of reals, which the solver does not find unaided. */
module RealArith {

  lemma ProductNonNegative(a: real, b: real)
    requires a >= 0.0 && b >= 0.0
    ensures a * b >= 0.0
  {
  }

  lemma ProductPositive(a: real, b: real)
    requires a > 0.0 && b > 0.0
    ensures a * b > 0.0
  {
  }

  /** Scaling a width `w` by a unit draw `u` stays within [0, w], and below a positive `w`. */
  lemma UnitScaleBounds(w: real, u: real)
    requires w >= 0.0 && 0.0 <= u < 1.0
    ensures 0.0 <= w * u <= w
    ensures w > 0.0 ==> w * u < w
  {
    ProductNonNegative(w, u);
    ProductNonNegative(w, 1.0 - u);
    if w > 0.0 {
      ProductPositive(w, 1.0 - u);
    }
  }
}
