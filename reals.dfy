/** Facts about real arithmetic the geometric proofs are assembled from.
    Each is stated over plain variables, so that a proof about vectors only
    has to instantiate it and never reasons about products and sums at once. */
module Reals {

  lemma ProductPositive(a: real, b: real)
    requires 0.0 < a && 0.0 < b
    ensures 0.0 < a * b
  {
  }

  lemma SumNonNegative3(a: real, b: real, c: real)
    requires 0.0 <= a && 0.0 <= b && 0.0 <= c
    ensures 0.0 <= a + b + c
  {
  }

  lemma OneTimes(p: real, d: real)
    requires p == 1.0
    ensures p * d == d
  {
  }

  lemma SquareNonNegative(a: real)
    ensures 0.0 <= a * a
  {
  }

  /** Squaring is strictly increasing on the non-negative reals. */
  lemma SquareStrict(r: real, x: real)
    requires 0.0 <= r < x
    ensures r * r < x * x
  {
    ProductPositive(x - r, x + r);
  }

  lemma OnePlusSquarePositive(t: real)
    ensures 0.0 < 1.0 + t * t
  {
  }

  lemma ReciprocalSquare(k: real, s: real, d: real)
    requires k * s == 1.0 && s * s == d
    ensures k * k * d == 1.0
  {
    assert k * k * d == (k * s) * (k * s);
  }
}
