/** The arithmetic the services compute with `reduce`: sums, means, the
    population variance, and `Math.round` of a mean to one decimal. */
module Stats {

  /** `xs.reduce((sum, x) => sum + x, 0)`. */
  function Sum(xs: seq<int>): int {
    if xs == [] then 0 else Sum(xs[..|xs| - 1]) + xs[|xs| - 1]
  }

  function SumOfSquares(xs: seq<int>): int {
    if xs == [] then 0 else SumOfSquares(xs[..|xs| - 1]) + xs[|xs| - 1] * xs[|xs| - 1]
  }

  function Mean(xs: seq<int>): real
    requires |xs| > 0
  {
    Sum(xs) as real / |xs| as real
  }

  predicate AllIn(xs: seq<int>, lo: int, hi: int) {
    forall i :: 0 <= i < |xs| ==> lo <= xs[i] <= hi
  }

  /** A sum of values in [lo, hi] lies between n·lo and n·hi. */
  lemma {:induction false} SumBounds(xs: seq<int>, lo: int, hi: int)
    requires AllIn(xs, lo, hi)
    ensures lo * |xs| <= Sum(xs) <= hi * |xs|
  {
    if xs != [] {
      var init := xs[..|xs| - 1];
      assert AllIn(init, lo, hi) by {
        forall i | 0 <= i < |init| ensures lo <= init[i] <= hi {
          assert init[i] == xs[i];
        }
      }
      SumBounds(init, lo, hi);
      assert lo * |xs| == lo * |init| + lo;
      assert hi * |xs| == hi * |init| + hi;
    }
  }

  /** Comparing a difference of two means with a threshold, without
      division: `sa/na - sb/nb > c` exactly when `sa·nb - sb·na > c·na·nb`. */
  lemma MeanDifferenceAbove(sa: int, na: int, sb: int, nb: int, c: real)
    requires na > 0 && nb > 0
    ensures sa as real / na as real - sb as real / nb as real > c <==>
            (sa * nb - sb * na) as real > c * (na * nb) as real
  {
    var x := sa as real / na as real;
    var y := sb as real / nb as real;
    var k := (na * nb) as real;
    assert k > 0.0;
    assert x * na as real == sa as real;
    assert y * nb as real == sb as real;
    assert (x - y) * k == (sa * nb - sb * na) as real by {
      assert (x - y) * k == x * na as real * nb as real - y * nb as real * na as real;
    }
    if x - y > c {
      assert (x - y) * k > c * k;
    } else {
      assert (x - y) * k <= c * k;
    }
  }

  /** `Math.round(10 · s / n)` for n > 0: the nearest integer, halves
      rounded up. */
  function RoundedTenths(s: int, n: int): (t: int)
    requires n > 0
    ensures (2 * t - 1) * n <= 20 * s < (2 * t + 1) * n
  {
    var t := (20 * s + n) / (2 * n);
    var rem := (20 * s + n) % (2 * n);
    assert 20 * s + n == 2 * n * t + rem;
    assert (2 * t - 1) * n == 2 * n * t - n;
    assert (2 * t + 1) * n == 2 * n * t + n;
    t
  }

  /** Σ(n·x − S)² for the sum S and count n of `xs`: the squared
      deviations from the mean, each scaled by n². */
  function ScaledDeviations(xs: seq<int>, n: int, total: int): int {
    if xs == [] then 0
    else
      var d := n * xs[|xs| - 1] - total;
      ScaledDeviations(xs[..|xs| - 1], n, total) + d * d
  }

  /** n²·σ², the population variance scaled to an integer. */
  function ScaledVariance(xs: seq<int>): int {
    |xs| * SumOfSquares(xs) - Sum(xs) * Sum(xs)
  }

  /** `calculateVariability(xs)` squared: the mean of the squared
      deviations from the mean, Σ(x − S/n)²/n = Σ(n·x − S)²/n³; 0 for fewer
      than two values. */
  function Variance(xs: seq<int>): real {
    if |xs| < 2 then 0.0
    else
      var n := |xs|;
      ScaledDeviations(xs, n, Sum(xs)) as real / (n * n * n) as real
  }

  /** Σ(a·x − c)² = a²·Σx² − 2ac·Σx + |xs|·c². */
  lemma {:induction false} ScaledDeviationsExpand(xs: seq<int>, a: int, c: int)
    ensures ScaledDeviations(xs, a, c) ==
      a * a * SumOfSquares(xs) - 2 * a * c * Sum(xs) + |xs| * c * c
  {
    if xs != [] {
      var init := xs[..|xs| - 1];
      var x := xs[|xs| - 1];
      ScaledDeviationsExpand(init, a, c);
      assert ScaledDeviations(xs, a, c) == ScaledDeviations(init, a, c) + (a * x - c) * (a * x - c);
      assert SumOfSquares(xs) == SumOfSquares(init) + x * x;
      assert Sum(xs) == Sum(init) + x;
      ExpandStep(a, c, x, SumOfSquares(init), Sum(init), |init|);
    }
  }

  lemma ExpandStep(a: int, c: int, x: int, q: int, s: int, n: int)
    ensures a * a * q - 2 * a * c * s + n * c * c + (a * x - c) * (a * x - c)
      == a * a * (q + x * x) - 2 * a * c * (s + x) + (n + 1) * c * c
  {
    assert (a * x - c) * (a * x - c) == a * a * (x * x) - 2 * a * c * x + c * c;
    assert a * a * (q + x * x) == a * a * q + a * a * (x * x);
    assert 2 * a * c * (s + x) == 2 * a * c * s + 2 * a * c * x;
    assert (n + 1) * c * c == n * c * c + c * c;
  }

  lemma {:induction false} ScaledDeviationsNonNegative(xs: seq<int>, a: int, c: int)
    ensures ScaledDeviations(xs, a, c) >= 0
  {
    if xs != [] {
      ScaledDeviationsNonNegative(xs[..|xs| - 1], a, c);
      SquareNonNegative(a * xs[|xs| - 1] - c);
    }
  }

  lemma SquareNonNegative(d: int)
    ensures d * d >= 0
  {
  }

  /** Σ(n·x − S)² = n·(n·Σx² − S²). */
  lemma DeviationsClosedForm(xs: seq<int>)
    ensures ScaledDeviations(xs, |xs|, Sum(xs)) == |xs| * ScaledVariance(xs)
  {
    ScaledDeviationsExpand(xs, |xs|, Sum(xs));
    ClosedFormAlgebra(|xs|, Sum(xs), SumOfSquares(xs));
  }

  lemma ClosedFormAlgebra(n: int, s: int, q: int)
    ensures n * n * q - 2 * n * s * s + n * s * s == n * (n * q - s * s)
  {
  }

  /** The variance is never negative: n·Σx² ≥ (Σx)². */
  lemma ScaledVarianceNonNegative(xs: seq<int>)
    ensures ScaledVariance(xs) >= 0
    ensures Variance(xs) >= 0.0
  {
    DeviationsClosedForm(xs);
    ScaledDeviationsNonNegative(xs, |xs|, Sum(xs));
    if |xs| > 0 && ScaledVariance(xs) < 0 {
      NegativeProduct(|xs|, ScaledVariance(xs));
    }
    if |xs| >= 2 {
      var n := |xs|;
      PositiveCube(n);
      NonNegativeQuotient(ScaledDeviations(xs, n, Sum(xs)) as real, (n * n * n) as real);
    }
  }

  lemma NegativeProduct(n: int, v: int)
    requires n > 0 && v < 0
    ensures n * v < 0
  {
  }

  lemma PositiveCube(n: int)
    requires n > 0
    ensures n * n * n > 0
  {
    assert n * n > 0;
  }

  lemma NonNegativeQuotient(a: real, b: real)
    requires a >= 0.0 && b > 0.0
    ensures a / b >= 0.0
  {
  }

  lemma QuotientAbove(a: real, b: real, c: real)
    requires b > 0.0
    ensures a / b > c <==> a > c * b
  {
    assert a / b * b == a;
    if a / b > c {
      assert a / b * b - c * b == (a / b - c) * b;
    } else {
      assert c * b - a / b * b == (c - a / b) * b;
    }
  }

  lemma ProductAbove(n: int, a: int, b: int)
    requires n > 0
    ensures n * a > n * b <==> a > b
  {
    if a > b {
      assert n * a - n * b == n * (a - b);
    } else {
      assert n * b - n * a == n * (b - a);
    }
  }

  /** The variability test `sqrt(variance) > 2.5` without square roots or
      division: `4·(n·Σx² − (Σx)²) > 25·n²`. */
  lemma VarianceAbove(xs: seq<int>)
    requires |xs| >= 2
    ensures Variance(xs) > 6.25 <==> 4 * ScaledVariance(xs) > 25 * (|xs| * |xs|)
  {
    var n := |xs|;
    var dev := ScaledDeviations(xs, n, Sum(xs));
    var cube := n * n * n;
    PositiveCube(n);
    QuotientAbove(dev as real, cube as real, 6.25);
    assert dev as real > 6.25 * cube as real <==> 4 * dev > 25 * cube;
    DeviationsClosedForm(xs);
    assert 4 * dev == n * (4 * ScaledVariance(xs));
    assert 25 * cube == n * (25 * (n * n));
    ProductAbove(n, 4 * ScaledVariance(xs), 25 * (n * n));
  }

  /** A mean compared with an integer threshold, on the sum: mean ≥ c
      exactly when Σx ≥ c·n. */
  lemma MeanAtLeast(xs: seq<int>, c: int)
    requires |xs| > 0
    ensures Mean(xs) >= c as real <==> Sum(xs) >= c * |xs|
  {
    var n := |xs| as real;
    QuotientAbove(Sum(xs) as real, n, c as real);
    assert Mean(xs) * n == Sum(xs) as real;
    if Mean(xs) == c as real {
      assert Sum(xs) as real == c as real * n;
    }
  }
}
