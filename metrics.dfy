/**
 * Precision, recall and F1 of binary decisions. Each divides by the larger
 * of a fixed floor and the natural denominator, so each is total: a
 * degenerate denominator gives an underestimate instead of a division by zero.
 */
module Metrics {
  import opened Rows

  /** The floor every metric's denominator is raised to. */
  const DenominatorFloor: real := 1.0

  function Floored(d: real): (f: real)
    ensures f >= DenominatorFloor
    ensures d >= DenominatorFloor ==> f == d
  {
    if DenominatorFloor >= d then DenominatorFloor else d
  }

  /** compute_precision(tp, fp) from the counts of true and false positives. */
  function Precision(tp: real, fp: real): (p: real)
    ensures 0.0 <= tp && 0.0 <= fp ==> 0.0 <= p <= 1.0
    ensures tp + fp >= 1.0 ==> p * (tp + fp) == tp
    ensures tp + fp < 1.0 ==> p == tp
    ensures tp == 0.0 ==> p == 0.0
  {
    var d := Floored(tp + fp);
    Quotient(tp, d);
    tp / d
  }

  /** compute_recall(y, tp) from the (flattened) binary targets and the true positives. */
  function Recall(y: Row, tp: real): (r: real)
    ensures Sum(y) >= 1.0 ==> r * Sum(y) == tp
    ensures 0.0 <= tp <= Sum(y) ==> 0.0 <= r <= 1.0
    ensures Sum(y) < 1.0 ==> r == tp
    ensures tp == 0.0 ==> r == 0.0
  {
    var d := Floored(Sum(y));
    Quotient(tp, d);
    tp / d
  }

  /** With all-zero targets there are no positives, and recall reduces to the true-positive count. */
  lemma RecallAllNegative(y: Row, tp: real)
    requires forall j | 0 <= j < |y| :: y[j] == 0.0
    ensures Recall(y, tp) == tp
    ensures Recall(y, 0.0) == 0.0
  {
    SumOfZeros(y);
  }

  /** compute_f1(precision, recall). */
  function F1(p: real, r: real): (f: real)
    ensures 0.0 <= p <= 1.0 && 0.0 <= r <= 1.0 ==> 0.0 <= f <= 1.0
    ensures p + r >= 1.0 ==> f * (p + r) == 2.0 * p * r
    ensures p + r < 1.0 ==> f == 2.0 * p * r
    ensures p == 0.0 || r == 0.0 ==> f == 0.0
  {
    F1Bounded(p, r);
    2.0 * p * r / Floored(p + r)
  }

  lemma F1Bounded(p: real, r: real)
    ensures 0.0 <= p <= 1.0 && 0.0 <= r <= 1.0 ==> 0.0 <= 2.0 * p * r / Floored(p + r) <= 1.0
  {
    if 0.0 <= p <= 1.0 && 0.0 <= r <= 1.0 {
      ProductBounds(p, r);
      QuotientAtMostOne(2.0 * p * r, Floored(p + r));
    }
  }

  /** For p and r in [0, 1], 2pr is at most p + r. */
  lemma ProductBounds(p: real, r: real)
    requires 0.0 <= p <= 1.0 && 0.0 <= r <= 1.0
    ensures 0.0 <= 2.0 * p * r <= p + r
  {
    var pr := p * r;
    AtMostFactor(p, r);
    assert pr <= p;
    AtMostFactor(r, p);
    assert r * p == pr;
    assert pr <= r;
    ProductMonotone(p, 0.0, r);
    assert p * 0.0 == 0.0;
    assert 0.0 <= pr;
    assert 2.0 * p * r == pr + pr;
  }

  /** Scaling `a >= 0` by a factor in [0, 1] does not increase it. */
  lemma AtMostFactor(a: real, f: real)
    requires 0.0 <= a && f <= 1.0
    ensures a * f <= a
  {
    ProductMonotone(a, f, 1.0);
  }

  /** For 0 <= a <= b, the product ab lies between the squares. */
  lemma SquareBounds(a: real, b: real)
    requires 0.0 <= a <= b
    ensures a * a <= a * b <= b * b
  {
    ProductMonotone(a, a, b);
    ProductMonotone(b, a, b);
    assert b * a == a * b;
  }

  lemma QuotientAtMostOne(n: real, d: real)
    requires 0.0 <= n <= d && 0.0 < d
    ensures 0.0 <= n / d <= 1.0
  {
    assert n / d * d == n;
  }

  /** Dividing by a floored denominator `d >= 1`. */
  lemma Quotient(n: real, d: real)
    requires d >= 1.0
    ensures n / d * d == n
    ensures 0.0 <= n <= d ==> 0.0 <= n / d <= 1.0
    ensures 0.0 <= n ==> n / d <= n
    ensures n == 0.0 ==> n / d == 0.0
  {
    if 0.0 <= n <= d {
      QuotientAtMostOne(n, d);
    }
    if 0.0 <= n {
      DivideByLarger(n, 1.0, d);
    }
  }

  lemma ProductMonotone(a: real, b: real, c: real)
    requires 0.0 <= a && b <= c
    ensures a * b <= a * c
  {
  }

  /** F1 treats precision and recall alike. */
  lemma F1Symmetric(p: real, r: real)
    ensures F1(p, r) == F1(r, p)
  {
    assert 2.0 * p * r == 2.0 * r * p;
  }

  /**
   * Where the natural denominator is below the floor, each metric is at most
   * its unfloored value: the floor only ever underestimates.
   */
  lemma FloorUnderestimates(tp: real, fp: real, p: real, r: real)
    requires 0.0 <= tp && 0.0 <= fp && 0.0 < tp + fp
    requires 0.0 <= p && 0.0 <= r && 0.0 < p + r
    ensures Precision(tp, fp) <= tp / (tp + fp)
    ensures F1(p, r) <= 2.0 * p * r / (p + r)
  {
    DivideByLarger(tp, tp + fp, Floored(tp + fp));
    assert 0.0 <= p * r by { ProductMonotone(p, 0.0, r); }
    DivideByLarger(2.0 * p * r, p + r, Floored(p + r));
  }

  lemma DivideByLarger(n: real, d: real, e: real)
    requires 0.0 <= n && 0.0 < d <= e
    ensures n / e <= n / d
    ensures 0.0 <= n / e
  {
    assert n / e * e == n == n / d * d;
    assert n / e * d <= n / e * e;
  }

  /**
   * The F1 score as the harmonic mean of precision and recall, with 0 when
   * both are 0: the formula compute_f1 documents, without the floor.
   */
  function F1Harmonic(p: real, r: real): (f: real)
    ensures 0.0 <= p && 0.0 <= r && p + r > 0.0 ==> f * (p + r) == 2.0 * p * r
    ensures 0.0 <= p && 0.0 <= r && p + r >= 1.0 ==> f == F1(p, r)
    ensures 0.0 <= p <= r ==> p <= f <= r
    ensures 0.0 <= r <= p ==> r <= f <= p
  {
    if 0.0 <= p && 0.0 <= r then
      if p + r == 0.0 then 0.0
      else
        HarmonicBetween(p, r);
        2.0 * p * r / (p + r)
    else 2.0 * p * r / Floored(p + r)
  }

  /** The harmonic mean of two non-negative reals, not both 0, lies between them. */
  lemma HarmonicBetween(p: real, r: real)
    requires 0.0 <= p && 0.0 <= r && p + r > 0.0
    ensures p <= r ==> p <= 2.0 * p * r / (p + r) <= r
    ensures r <= p ==> r <= 2.0 * p * r / (p + r) <= p
  {
    if p <= r {
      BetweenOperands(p, r);
    } else {
      BetweenOperands(r, p);
      assert 2.0 * r * p == 2.0 * p * r && r + p == p + r;
    }
  }

  /** For 0 <= a <= b with b > 0, the harmonic mean of a and b lies in [a, b]. */
  lemma BetweenOperands(a: real, b: real)
    requires 0.0 <= a <= b && 0.0 < b
    ensures a <= 2.0 * a * b / (a + b) <= b
  {
    var s := a + b;
    SquareBounds(a, b);
    assert b * a == a * b;
    assert a * s == a * a + a * b;
    assert b * s == a * b + b * b;
    assert 2.0 * a * b == a * b + a * b;
    AtLeastQuotient(2.0 * a * b, s, a);
    AtMostQuotient(2.0 * a * b, s, b);
  }

  /** `m <= n / d` when `m * d <= n` and `d > 0`. */
  lemma AtLeastQuotient(n: real, d: real, m: real)
    requires 0.0 < d && m * d <= n
    ensures m <= n / d
  {
    var q := n / d;
    assert q * d == n;
    if q < m {
      ProductStrict(d, q, m);
      assert d * q == q * d && d * m == m * d;
    }
  }

  /** `n / d <= m` when `n <= m * d` and `d > 0`. */
  lemma AtMostQuotient(n: real, d: real, m: real)
    requires 0.0 < d && n <= m * d
    ensures n / d <= m
  {
    var q := n / d;
    assert q * d == n;
    if q > m {
      ProductStrict(d, m, q);
      assert d * q == q * d && d * m == m * d;
    }
  }

  lemma ProductStrict(a: real, b: real, c: real)
    requires 0.0 < a && b < c
    ensures a * b < a * c
  {
  }

  /**
   * With both precision and recall at 0.4, compute_f1 gives 0.32, below both of
   * them, while the harmonic mean gives 0.4.
   */
  lemma F1FloorDistorts()
    ensures F1(0.4, 0.4) == 0.32
    ensures F1Harmonic(0.4, 0.4) == 0.4
    ensures F1(0.4, 0.4) < 0.4
  {
  }
}
