/**
 * `Math.hypot(x, y)`, which has no counterpart here (there is no square
 * root on `real`), described by its contract; and the facts about squares
 * that range checks stated with squares need.
 */
module Hypot {

  /**
   * `h` is what `Math.hypot(x, y)` returns: the Euclidean length of (x, y),
   * non-negative, whose square is the sum of the squares, and zero exactly
   * for the zero vector.
   */
  ghost predicate IsHypot(x: real, y: real, h: real) {
    && h >= 0.0
    && h * h == x * x + y * y
    && (h == 0.0 <==> x == 0.0 && y == 0.0)
  }

  /**
   * A length `h` whose square is `s` is at most `r` exactly when `r` is not
   * negative and `s` is at most `r * r`: a distance check needs no root.
   */
  lemma WithinBySquares(s: real, h: real, r: real)
    requires !(h < 0.0) && h * h == s
    ensures h <= r <==> (r >= 0.0 && s <= r * r)
  {
    if !(r < h) {
      SquareMonotone(h, r);
    } else if !(r < 0.0) {
      SquareStrictlyMonotone(r, h);
    }
  }

  lemma SquareMonotone(h: real, r: real)
    requires !(h < 0.0) && !(r < h)
    ensures !(r * r < h * h)
  {
    ScaleMonotone(h, r, h);
    ScaleMonotone(h, r, r);
  }

  lemma SquareStrictlyMonotone(r: real, h: real)
    requires !(r < 0.0) && r < h
    ensures r * r < h * h
  {
    ProductOfPositives(h - r, h + r);
  }

  lemma ScaleMonotone(a: real, b: real, c: real)
    requires !(a < 0.0) && !(b < a) && !(c < 0.0)
    ensures !(b * c < a * c)
  {
  }

  lemma ProductOfPositives(a: real, b: real)
    requires a > 0.0 && b > 0.0
    ensures a * b > 0.0
  {
  }
}
