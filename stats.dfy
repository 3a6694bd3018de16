/**
 * The series statistics `runSimulation` derives before scoring: the mean,
 * the population standard deviation (`calculateStdDev`), the coefficient of
 * variation and the closed-form least-squares slope of price against index.
 */
module SeriesStats {
  import opened Host

  /** `xs.reduce((a, b) => a + b, 0)`. */
  function Sum(xs: seq<real>): real {
    if xs == [] then 0.0 else Sum(xs[..|xs| - 1]) + xs[|xs| - 1]
  }

  /** The mean as `runSimulation` takes it: the sum over `length || 1`, so 0 for no data. */
  function Mean(xs: seq<real>): (r: real)
    ensures |xs| == 0 ==> r == 0.0
    ensures |xs| > 0 ==> r * |xs| as real == Sum(xs)
  {
    Sum(xs) / (if |xs| == 0 then 1 else |xs|) as real
  }

  /** `xs.reduce((a, b) => a + Math.pow(b - mean, 2), 0)`: never negative. */
  function SumSquaredDeviations(xs: seq<real>, mean: real): (r: real)
    ensures r >= 0.0
  {
    if xs == [] then 0.0
    else
      var d := xs[|xs| - 1] - mean;
      SumSquaredDeviations(xs[..|xs| - 1], mean) + d * d
  }

  /** `calculateStdDev`: 0 for no data, else the square root of the population variance. */
  function StdDev(xs: seq<real>, num: Numerics): (r: real)
    requires ValidNumerics(num)
    ensures r >= 0.0
    ensures |xs| == 0 ==> r == 0.0
  {
    if |xs| == 0 then 0.0
    else
      var mean := Sum(xs) / |xs| as real;
      num.sqrt(SumSquaredDeviations(xs, mean) / |xs| as real)
  }

  /**
   * Coefficient of variation, guarded against a zero mean: the multiple of
   * the mean that the deviation is, and 0 where the mean is 0.
   */
  function Volatility(mean: real, stdDev: real): (r: real)
    ensures mean == 0.0 ==> r == 0.0
    ensures mean != 0.0 ==> r * mean == stdDev
  {
    if mean == 0.0 then 0.0 else stdDev / mean
  }

  /** `xs.reduce((sum, y, x) => sum + x * y, 0)`: each price weighted by its index. */
  function WeightedSum(xs: seq<real>): real {
    if xs == [] then 0.0 else WeightedSum(xs[..|xs| - 1]) + (|xs| - 1) as real * xs[|xs| - 1]
  }

  /** `n * (n - 1) / 2`. */
  function XSum(n: nat): real {
    (n as real) * ((n as real) - 1.0) / 2.0
  }

  /** `(n * (n - 1) * (2 * n - 1)) / 6`. */
  function XSquaredSum(n: nat): real {
    (n as real) * ((n as real) - 1.0) * (2.0 * (n as real) - 1.0) / 6.0
  }

  function SlopeDenominator(n: nat): real {
    (n as real) * XSquaredSum(n) - XSum(n) * XSum(n)
  }

  /**
   * The least-squares slope of `xs` against 0, 1, 2, ..., with a zero
   * denominator replaced by 1, so that a single point has slope 0.
   */
  function Slope(xs: seq<real>): (r: real)
    ensures |xs| <= 1 ==> r == 0.0
  {
    var denominator := SlopeDenominator(|xs|);
    assert |xs| <= 1 ==> SlopeNumerator(xs) == 0.0 by {
      if |xs| == 1 {
        assert xs[..0] == [];
        assert WeightedSum(xs) == 0.0 && XSum(1) == 0.0;
      }
    }
    SlopeNumerator(xs) / (if denominator == 0.0 then 1.0 else denominator)
  }

  function SlopeNumerator(xs: seq<real>): real {
    (|xs| as real) * WeightedSum(xs) - XSum(|xs|) * Sum(xs)
  }

  /** The sum 0 + 1 + ... + (n - 1), term by term. */
  function IndexSum(n: nat): real {
    if n == 0 then 0.0 else IndexSum(n - 1) + (n - 1) as real
  }

  /** The sum 0^2 + 1^2 + ... + (n - 1)^2, term by term. */
  function IndexSquareSum(n: nat): real {
    if n == 0 then 0.0 else IndexSquareSum(n - 1) + ((n - 1) as real) * ((n - 1) as real)
  }

  /** The closed forms the slope uses are the sums of the indices and of their squares. */
  lemma {:induction false} ClosedForms(n: nat)
    ensures XSum(n) == IndexSum(n)
    ensures XSquaredSum(n) == IndexSquareSum(n)
  {
    if n > 0 {
      ClosedForms(n - 1);
      var m := (n - 1) as real;
      assert XSum(n) == XSum(n - 1) + m;
      assert XSquaredSum(n) == XSquaredSum(n - 1) + m * m;
    }
  }

  /** The denominator is n^2 (n^2 - 1) / 12. */
  lemma DenominatorForm(n: nat)
    ensures SlopeDenominator(n) == (n as real) * (n as real) * ((n as real) * (n as real) - 1.0) / 12.0
  {
  }

  /** The denominator is zero for one point and positive from two points on. */
  lemma DenominatorSign(n: nat)
    ensures n <= 1 ==> SlopeDenominator(n) == 0.0
    ensures n >= 2 ==> SlopeDenominator(n) > 0.0
  {
    DenominatorForm(n);
    var x := n as real;
    if n >= 2 {
      assert x * x >= 4.0;
      assert x * x * (x * x - 1.0) > 0.0;
    }
  }

  /** On a constant series the numerator's two products cancel: `n * (c * S) - S * (n * c)`. */
  lemma ZeroNumerator(x: real, c: real, s1: real, sum: real, wsum: real, num: real)
    requires sum == x * c && wsum == c * s1
    requires num == x * wsum - s1 * sum
    ensures num == 0.0
  {
  }

  lemma {:induction false} ConstantSums(xs: seq<real>, c: real)
    requires forall i :: 0 <= i < |xs| ==> xs[i] == c
    ensures Sum(xs) == (|xs| as real) * c
    ensures WeightedSum(xs) == c * IndexSum(|xs|)
    ensures SumSquaredDeviations(xs, c) == 0.0
  {
    if xs != [] {
      ConstantSums(xs[..|xs| - 1], c);
      WeightedConstantStep(c, (|xs| - 1) as real, WeightedSum(xs[..|xs| - 1]), IndexSum(|xs| - 1),
                           WeightedSum(xs), IndexSum(|xs|));
    }
  }

  lemma WeightedConstantStep(c: real, m: real, w0: real, i0: real, w1: real, i1: real)
    requires w0 == c * i0 && w1 == w0 + m * c && i1 == i0 + m
    ensures w1 == c * i1
  {
  }

  /**
   * A constant series of any length has slope 0: the numerator vanishes, so
   * neither the denominator nor its fallback matters.
   */
  lemma ConstantSlope(xs: seq<real>, c: real)
    requires forall i :: 0 <= i < |xs| ==> xs[i] == c
    ensures SlopeNumerator(xs) == 0.0
    ensures Slope(xs) == 0.0
  {
    ConstantSums(xs, c);
    ClosedForms(|xs|);
    ZeroNumerator(|xs| as real, c, XSum(|xs|), Sum(xs), WeightedSum(xs), SlopeNumerator(xs));
  }

  /** A constant series has its value as mean, no deviation, and volatility 0. */
  lemma ConstantStatistics(xs: seq<real>, c: real, num: Numerics)
    requires ValidNumerics(num)
    requires |xs| >= 1
    requires forall i :: 0 <= i < |xs| ==> xs[i] == c
    ensures Mean(xs) == c
    ensures StdDev(xs, num) == 0.0
    ensures Volatility(Mean(xs), StdDev(xs, num)) == 0.0
  {
    ConstantSums(xs, c);
    var n := |xs| as real;
    assert Sum(xs) / n == c;
    assert SumSquaredDeviations(xs, c) / n == 0.0;
  }
}
