/** Minimum, maximum and clipping over real numbers (the `min`, `max` and
    `np.clip` every formula of the pipeline uses), and the facts about
    products that the bounds on those formulas rest on. */
module RealArith {

  /** Python's `min` on two numbers. */
  function Min(x: real, y: real): (m: real)
    ensures m <= x && m <= y
    ensures m == x || m == y
  {
    if x <= y then x else y
  }

  /** Python's `max` on two numbers. */
  function Max(x: real, y: real): (m: real)
    ensures m >= x && m >= y
    ensures m == x || m == y
  {
    if x >= y then x else y
  }

  /** Python's `min` on two integers. */
  function MinInt(x: int, y: int): (m: int)
    ensures m <= x && m <= y
    ensures m == x || m == y
  {
    if x <= y then x else y
  }

  /** `np.clip(x, lo, hi)` for a scalar with `lo <= hi`: `min(max(x, lo), hi)`. */
  function Clip(x: real, lo: real, hi: real): (c: real)
    requires lo <= hi
    ensures lo <= c <= hi
    ensures lo <= x <= hi <==> c == x
    ensures x <= lo ==> c == lo
    ensures x >= hi ==> c == hi
  {
    Min(Max(x, lo), hi)
  }

  lemma NonNegProduct(x: real, y: real)
    requires x >= 0.0 && y >= 0.0
    ensures x * y >= 0.0
  {
  }

  lemma PosProduct(x: real, y: real)
    requires x > 0.0 && y > 0.0
    ensures x * y > 0.0
  {
  }

  /** Multiplying by a non-negative factor keeps an inequality, on either side. */
  lemma MulMonotone(c: real, x: real, y: real)
    requires c >= 0.0 && x <= y
    ensures c * x <= c * y && x * c <= y * c
  {
    NonNegProduct(c, y - x);
    assert c * y - c * x == c * (y - x);
  }

  /** A non-negative amount scaled by a fraction in [0, 1] stays in [0, amount]. */
  lemma FractionOf(t: real, c: real)
    requires 0.0 <= t <= 1.0 && c >= 0.0
    ensures 0.0 <= t * c <= c && 0.0 <= c * t <= c
  {
    NonNegProduct(t, c);
    NonNegProduct(1.0 - t, c);
    assert c - t * c == (1.0 - t) * c;
  }

  /** Bounds on two non-negative factors bound their product. */
  lemma ProductBound(x: real, y: real, xMax: real, yMax: real)
    requires 0.0 <= x <= xMax && 0.0 <= y <= yMax
    ensures 0.0 <= x * y <= xMax * yMax
  {
    NonNegProduct(x, y);
    MulMonotone(y, x, xMax);
    MulMonotone(xMax, y, yMax);
  }

  /** A weighted sum of three terms, each at least `lo`, with non-negative
      weights, is at least the total weight times `lo`. */
  lemma WeightedSumScaled(a: real, b: real, c: real, w1: real, w2: real, w3: real, lo: real)
    requires w1 >= 0.0 && w2 >= 0.0 && w3 >= 0.0
    requires lo <= a && lo <= b && lo <= c
    ensures (w1 + w2 + w3) * lo <= w1 * a + w2 * b + w3 * c
  {
    MulMonotone(w1, lo, a);
    MulMonotone(w2, lo, b);
    MulMonotone(w3, lo, c);
    assert w1 * lo + w2 * lo + w3 * lo <= w1 * a + w2 * b + w3 * c;
    assert (w1 + w2 + w3) * lo == w1 * lo + w2 * lo + w3 * lo;
  }

  /** With weights summing to 1, a weighted sum of terms in [lo, hi] lies in [lo, hi]. */
  lemma WeightedSumBounds(a: real, b: real, c: real, w1: real, w2: real, w3: real, lo: real, hi: real)
    requires w1 >= 0.0 && w2 >= 0.0 && w3 >= 0.0 && w1 + w2 + w3 == 1.0
    requires lo <= a <= hi && lo <= b <= hi && lo <= c <= hi
    ensures lo <= w1 * a + w2 * b + w3 * c <= hi
  {
    WeightedSumScaled(a, b, c, w1, w2, w3, lo);
    WeightedSumScaled(-a, -b, -c, w1, w2, w3, -hi);
    assert w1 * (-a) + w2 * (-b) + w3 * (-c) == -(w1 * a + w2 * b + w3 * c);
  }
}
