/** Products, quotients and squares of reals, one small fact at a time. */
module RealArithmetic {

  lemma UnitSquare(x: real)
    requires 0.0 <= x <= 1.0
    ensures 0.0 <= x * x <= 1.0
  {
    NonNegativeProduct(x, x);
    NonNegativeProduct(x, 1.0 - x);
    assert x * (1.0 - x) == x - x * x;
  }

  lemma SquareStep(d: real, q: real, n: real, x: real)
    requires d * d <= n * q && 2.0 * (d * x) <= q + n * (x * x)
    ensures (d + x) * (d + x) <= (n + 1.0) * (q + x * x)
  {
    assert (n + 1.0) * (q + x * x) - (d + x) * (d + x) == (n * q - d * d) + (q + n * (x * x) - 2.0 * (d * x));
  }

  lemma CrossTerm(d: real, q: real, n: real, x: real)
    requires d >= 0.0 && q >= 0.0 && x >= 0.0 && d * d <= n * q
    requires n == 0.0 || n >= 1.0
    ensures 2.0 * (d * x) <= q + n * (x * x)
  {
    if n == 0.0 {
      if d > 0.0 {
        PositiveProduct(d, d);
      }
    } else {
      var t := n * x;
      assert (d - t) * (d - t) >= 0.0;
      assert (d - t) * (d - t) == d * d - 2.0 * (d * t) + t * t;
      assert d * t == n * (d * x) && t * t == n * (n * (x * x));
      assert n * (2.0 * (d * x)) <= n * q + n * (n * (x * x));
      assert n * q + n * (n * (x * x)) == n * (q + n * (x * x));
      CancelFactor(2.0 * (d * x), q + n * (x * x), n);
    }
  }

  lemma NonNegativeProduct(x: real, y: real)
    requires x >= 0.0 && y >= 0.0
    ensures x * y >= 0.0
  {
  }

  lemma PositiveProduct(x: real, y: real)
    requires x > 0.0 && y > 0.0
    ensures x * y > 0.0
  {
  }

  lemma CancelFactor(x: real, y: real, n: real)
    requires n > 0.0 && n * x <= n * y
    ensures x <= y
  {
  }

  lemma MultiplyOrder(x: real, y: real, n: real)
    requires n >= 0.0 && x <= y
    ensures n * x <= n * y
  {
  }

  /** The mean of the gaps, squared, is at most the mean of the squares. */
  lemma MeanSquare(g: real, d: real, q: real, n: real)
    requires n > 0.0 && 0.0 <= g <= d && d * d <= n * q
    ensures (g / n) * (g / n) <= q / n
  {
    var x, y := g / n, q / n;
    assert g == n * x && q == n * y;
    MultiplyOrder(g, d, g);
    MultiplyOrder(g, d, d);
    assert g * g <= n * q;
    CancelTwice(x, y, n, g, q);
  }

  lemma CancelTwice(x: real, y: real, n: real, g: real, q: real)
    requires n > 0.0 && g == n * x && q == n * y && g * g <= n * q
    ensures x * x <= y
  {
    assert g * g == n * (n * (x * x));
    assert n * q == n * (n * y);
    CancelFactor(n * (x * x), n * y, n);
    CancelFactor(x * x, y, n);
  }

  lemma DivideSum(a: real, b: real, n: real)
    requires n > 0.0
    ensures a / n + b / n == (a + b) / n
  {
  }

  lemma MeanInUnit(a: real, n: real)
    requires n > 0.0 && 0.0 <= a <= n
    ensures 0.0 <= a / n <= 1.0
  {
  }

  lemma DivideOrder(a: real, b: real, n: real)
    requires n > 0.0 && a <= b
    ensures a / n <= b / n
  {
  }

  lemma WeightStep(lo: real, hi: real, score: real, weight: real, sum: real, total: real)
    requires lo <= score <= hi && weight > 0.0 && lo * total <= sum <= hi * total
    ensures lo * (total + weight) <= sum + score * weight <= hi * (total + weight)
  {
    Scaled(lo, score, weight);
    Scaled(score, hi, weight);
    assert lo * (total + weight) == lo * total + lo * weight;
    assert hi * (total + weight) == hi * total + hi * weight;
  }

  lemma Scaled(x: real, y: real, weight: real)
    requires x <= y && weight >= 0.0
    ensures x * weight <= y * weight
  {
    assert (y - x) * weight >= 0.0;
  }

  lemma Quotient(lo: real, hi: real, sum: real, total: real)
    requires total > 0.0 && lo * total <= sum <= hi * total
    ensures lo <= sum / total <= hi
  {
    var q := sum / total;
    assert q * total == sum;
    CancelFactor(lo, q, total);
    CancelFactor(q, hi, total);
  }
}
