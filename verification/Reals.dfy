/** Order facts about products and quotients that the averages rest on. */
module Reals {
  lemma ScaleOrder(p: real, q: real, y: real)
    requires y > 0.0
    ensures p <= q <==> p * y <= q * y
    ensures p < q <==> p * y < q * y
  {
    assert (q - p) * y == q * y - p * y;
    if p < q {
      assert (q - p) * y > 0.0;
    } else if q < p {
      assert (p - q) * y > 0.0;
    }
  }

  lemma QuotientOrder(x: real, y: real, k: real)
    requires y > 0.0
    ensures x / y * y == x
    ensures x / y <= k <==> x <= k * y
    ensures x / y < k <==> x < k * y
    ensures x / y >= k <==> x >= k * y
    ensures x / y > k <==> x > k * y
  {
    assert x / y * y == x;
    ScaleOrder(x / y, k, y);
    ScaleOrder(k, x / y, y);
  }

  lemma QuotientUnique(q: real, x: real, y: real)
    requires y > 0.0 && q * y == x
    ensures q == x / y
  {
    QuotientOrder(x, y, q);
  }

  lemma QuotientIs(q: real, x: real, y: real)
    requires y > 0.0
    ensures q == x / y <==> q * y == x
  {
    QuotientOrder(x, y, q);
    if q * y == x {
      QuotientUnique(q, x, y);
    }
  }

  /** A sum of total weight `w` whose terms lie between `lo` and `hi`. */
  ghost predicate Weighs(lo: real, sum: real, hi: real, w: real) {
    lo * w <= sum <= hi * w
  }

  /** One more term whose value respects the bounds keeps them. */
  lemma WeightedStep(lo: real, p: real, hi: real, w: real, n: real, a: real, n': real, a': real)
    requires w > 0.0 && lo <= p <= hi && Weighs(lo, a, hi, n)
    requires n' == n + w && a' == a + p * w
    ensures Weighs(lo, a', hi, n')
  {
    ScaleOrder(lo, p, w);
    ScaleOrder(p, hi, w);
    assert lo * n' == lo * n + lo * w;
    assert hi * n' == hi * n + hi * w;
  }

  /** So the mean lies between the bounds. */
  lemma MeanBounds(lo: real, sum: real, hi: real, w: real)
    requires w > 0.0 && Weighs(lo, sum, hi, w)
    ensures lo <= sum / w <= hi
  {
    QuotientOrder(sum, w, lo);
    QuotientOrder(sum, w, hi);
  }
}
