/** The portfolio evaluator: annualised expected return, variance, volatility and
    Sharpe ratio of a weighted portfolio, from the daily returns of its assets.
    Daily statistics are annualised by 252 trading days, written as a literal as the
    source writes it. */
module Metrics {
  import opened Outcomes
  import opened Reals
  import opened SquareRoot
  import opened Statistics
  import opened Matrices
  import opened Covariance

  /** Annual risk-free rate the Sharpe ratio is measured against (a T-bill rate). */
  const RiskFreeRate: real := 0.05

  /** A symbol paired with the caller's weight at the same position; absent when the
      weight list is shorter than the symbol list. */
  datatype Holding = Holding(symbol: string, weight: Option<real>)

  datatype PortfolioMetrics = PortfolioMetrics(
    expectedReturn: real,
    variance: real,
    volatility: real,
    sharpeRatio: real,
    weights: seq<Holding>)

  /** Why no metrics can be produced, in the order the evaluator meets the problems:
      the per-asset means, then the weights-times-means product, then the covariance. */
  function MetricsError(weightCount: nat, series: seq<seq<real>>): Option<QuantError>
  {
    if HasEmptySeries(series) then Some(InsufficientData)
    else if weightCount != |series| then Some(DimensionMismatch)
    else CovarianceError(series)
  }

  /** The daily returns of the whole portfolio: day t is the sum of w[i] * series[i][t]. */
  function Combine(w: seq<real>, series: seq<seq<real>>): (c: seq<real>)
    requires |w| == |series| && IsRect(series, SampleCount(series))
    ensures |c| == SampleCount(series)
  {
    VecMat(w, series, SampleCount(series))
  }

  /** Each asset's mean daily return. */
  function Means(series: seq<seq<real>>): (m: seq<real>)
    requires !HasEmptySeries(series)
    ensures |m| == |series|
  {
    seq(|series|, i requires 0 <= i < |series| => Mean(series[i]))
  }

  /** Each asset's mean daily return, times 252. */
  function AnnualReturns(series: seq<seq<real>>): (r: seq<real>)
    requires !HasEmptySeries(series)
    ensures |r| == |series|
  {
    Scale(252.0, Means(series))
  }

  /** Every covariance entry times 252. */
  function AnnualCovariance(cov: Matrix): (a: Matrix)
    ensures |a| == |cov| && forall i | 0 <= i < |cov| :: |a[i]| == |cov[i]|
  {
    seq(|cov|, i requires 0 <= i < |cov| =>
      seq(|cov[i]|, j requires 0 <= j < |cov[i]| => cov[i][j] * 252.0))
  }

  /** symbols[i] paired with weights[i], in the caller's order. */
  function PairWeights(symbols: seq<string>, weights: seq<real>): (h: seq<Holding>)
    ensures |h| == |symbols|
    ensures forall i | 0 <= i < |symbols| :: h[i].symbol == symbols[i]
    ensures forall i | 0 <= i < |symbols| :: h[i].weight.Some? <==> i < |weights|
    ensures forall i | 0 <= i < |symbols| && i < |weights| :: h[i].weight.value == weights[i]
  {
    seq(|symbols|, i requires 0 <= i < |symbols| =>
      Holding(symbols[i], if i < |weights| then Some(weights[i]) else None))
  }

  /** The evaluator. Weights are used as given, never renormalised. */
  function CalculatePortfolioMetrics(
    symbols: seq<string>, weights: seq<real>, series: seq<seq<real>>, sqrt: real -> real
  ): (r: Result<PortfolioMetrics>)
    requires IsSqrt(sqrt)
    ensures r.Failure? <==> MetricsError(|weights|, series).Some?
    ensures r.Failure? ==> r.error == MetricsError(|weights|, series).value
    ensures r.Success? ==>
      && 0.0 <= r.value.variance
      && r.value == Assemble(r.value.expectedReturn, r.value.variance, sqrt, r.value.weights)
      && |r.value.weights| == |symbols|
      && (forall i | 0 <= i < |symbols| ::
            && r.value.weights[i].symbol == symbols[i]
            && r.value.weights[i].weight == (if i < |weights| then Some(weights[i]) else None))
    ensures MetricsError(|weights|, series).None? && |series| > 0 ==>
      && r.Success?
      && r.value.expectedReturn == 252.0 * Mean(Combine(weights, series))
      && r.value.variance == 252.0 * SampleVariance(Combine(weights, series))
    ensures MetricsError(|weights|, series).None? && |series| == 0 ==>
      && r.Success?
      && r.value.expectedReturn == 0.0 && r.value.variance == 0.0 && r.value.sharpeRatio == 0.0
  {
    match MetricsError(|weights|, series)
    case Some(e) => Failure(e)
    case None =>
      var expectedReturn := Dot(weights, AnnualReturns(series));
      var variance := Quad(weights, AnnualCovariance(CovarianceMatrix(series).value));
      PortfolioStatistics(weights, series);
      Success(Assemble(expectedReturn, variance, sqrt, PairWeights(symbols, weights)))
  }

  /** Volatility is the square root of the variance; the Sharpe ratio is the excess return
      over the risk-free rate per unit of volatility, and 0 when volatility is not positive. */
  function Assemble(expectedReturn: real, variance: real, sqrt: real -> real, holdings: seq<Holding>)
    : (m: PortfolioMetrics)
    requires IsSqrt(sqrt) && 0.0 <= variance
    ensures m.expectedReturn == expectedReturn && m.variance == variance && m.weights == holdings
    ensures 0.0 <= m.volatility && m.volatility * m.volatility == variance
    ensures 0.0 < m.volatility ==> m.sharpeRatio == (expectedReturn - RiskFreeRate) / m.volatility
    ensures m.volatility <= 0.0 ==> m.sharpeRatio == 0.0
  {
    var volatility := sqrt(variance);
    SqrtFacts(sqrt, variance);
    var sharpeRatio := if volatility > 0.0 then (expectedReturn - RiskFreeRate) / volatility else 0.0;
    PortfolioMetrics(expectedReturn, variance, volatility, sharpeRatio, holdings)
  }

  /** The metrics do not depend on which square root is supplied: every valid one gives
      the same volatility, hence the same Sharpe ratio. */
  lemma AssembleIgnoresSqrt(
    expectedReturn: real, variance: real, sqrt1: real -> real, sqrt2: real -> real, holdings: seq<Holding>)
    requires IsSqrt(sqrt1) && IsSqrt(sqrt2) && 0.0 <= variance
    ensures Assemble(expectedReturn, variance, sqrt1, holdings)
         == Assemble(expectedReturn, variance, sqrt2, holdings)
  {
    SqrtFacts(sqrt1, variance);
    SqrtOfSquare(sqrt2, variance, sqrt1(variance));
  }

  /** The evaluator's expected return and variance are the annualised mean and unbiased
      sample variance of the combined daily return series; with no assets both are 0. */
  lemma PortfolioStatistics(weights: seq<real>, series: seq<seq<real>>)
    requires MetricsError(|weights|, series).None?
    ensures |series| > 0 ==>
      && Dot(weights, AnnualReturns(series)) == 252.0 * Mean(Combine(weights, series))
      && Quad(weights, AnnualCovariance(CovarianceMatrix(series).value))
           == 252.0 * SampleVariance(Combine(weights, series))
    ensures 0.0 <= Quad(weights, AnnualCovariance(CovarianceMatrix(series).value))
    ensures |series| == 0 ==>
      && Dot(weights, AnnualReturns(series)) == 0.0
      && Quad(weights, AnnualCovariance(CovarianceMatrix(series).value)) == 0.0
  {
    if |series| > 0 {
      var m := SampleCount(series);
      ExpectedReturnIsCombinedMean(weights, series, m);
      VarianceIsCombinedSampleVariance(weights, series, m);
      SampleVarianceNonNegative(VecMat(weights, series, m));
    }
  }

  lemma ExpectedReturnIsCombinedMean(w: seq<real>, series: seq<seq<real>>, m: nat)
    requires |w| == |series| && IsRect(series, m) && m > 0
    ensures !HasEmptySeries(series)
    ensures Dot(w, AnnualReturns(series)) == 252.0 * Mean(VecMat(w, series, m))
  {
    MeanOfCombination(w, series, m);
    DotScaleRight(w, 252.0, Means(series));
  }

  /** The mean of a weighted sum of series is the weighted sum of their means. */
  lemma MeanOfCombination(w: seq<real>, series: seq<seq<real>>, m: nat)
    requires |w| == |series| && IsRect(series, m) && m > 0
    ensures !HasEmptySeries(series)
    ensures Mean(VecMat(w, series, m)) == Dot(w, Means(series))
  {
    var c := VecMat(w, series, m);
    var sums := MatVec(series, Const(m, 1.0));
    var inv := 1.0 / m as real;
    assert Sum(c) == Dot(w, sums) by {
      SumOfCombination(w, series, m);
    }
    assert Dot(w, Means(series)) == inv * Dot(w, sums) by {
      MeansAreScaledSums(series, m);
      DotScaleRight(w, inv, sums);
    }
    ScaledQuotient(Dot(w, Means(series)), Dot(w, sums), Sum(c), m as real, inv);
  }

  /** The total of a weighted sum of series is the weighted sum of their totals. */
  lemma SumOfCombination(w: seq<real>, series: seq<seq<real>>, m: nat)
    requires |w| == |series| && IsRect(series, m)
    ensures Sum(VecMat(w, series, m)) == Dot(w, MatVec(series, Const(m, 1.0)))
  {
    DotOnes(VecMat(w, series, m));
    VecMatDot(w, series, Const(m, 1.0));
  }

  lemma MeansAreScaledSums(series: seq<seq<real>>, m: nat)
    requires IsRect(series, m) && m > 0
    ensures !HasEmptySeries(series)
    ensures Means(series) == Scale(1.0 / m as real, MatVec(series, Const(m, 1.0)))
  {
    var sums := MatVec(series, Const(m, 1.0));
    forall i | 0 <= i < |series|
      ensures Means(series)[i] == Scale(1.0 / m as real, sums)[i]
    {
      DotOnes(series[i]);
      QuotientAsProduct(Sum(series[i]), m as real);
    }
  }

  /** Each series minus its own mean. */
  function DemeanRows(series: seq<seq<real>>, m: nat): (d: Matrix)
    requires IsRect(series, m) && m > 0
    ensures |d| == |series| && IsRect(d, m)
  {
    seq(|series|, i requires 0 <= i < |series| => Demean(series[i]))
  }

  /** Demeaning commutes with taking a weighted sum of series. */
  lemma DemeanOfCombination(w: seq<real>, series: seq<seq<real>>, m: nat)
    requires |w| == |series| && IsRect(series, m) && m > 0
    ensures Demean(VecMat(w, series, m)) == VecMat(w, DemeanRows(series, m), m)
  {
    var c := VecMat(w, series, m);
    var d := DemeanRows(series, m);
    MeanOfCombination(w, series, m);
    forall t | 0 <= t < m
      ensures Demean(c)[t] == VecMat(w, d, m)[t]
    {
      assert Col(d, m, t) == Sub(Col(series, m, t), Means(series));
      DotSubRight(w, Col(series, m, t), Means(series));
    }
  }

  /** The quadratic form w' (252 Cov) w is 252 times the unbiased sample variance of the
      portfolio's combined daily returns. */
  lemma VarianceIsCombinedSampleVariance(w: seq<real>, series: seq<seq<real>>, m: nat)
    requires |w| == |series| && IsRect(series, m) && m >= 2
    ensures Quad(w, AnnualCovariance(SampleCovarianceMatrix(series, m)))
              == 252.0 * SampleVariance(VecMat(w, series, m))
  {
    var k := 252.0 / (m - 1) as real;
    var c := VecMat(w, series, m);
    var annualQuad := Quad(w, AnnualCovariance(SampleCovarianceMatrix(series, m)));
    var gramQuad := Quad(w, Gram(DemeanRows(series, m), m));
    var squares := Dot(Demean(c), Demean(c));
    var variance := SampleVariance(c);
    AnnualQuadIsScaledGramQuad(w, series, m, k);
    GramQuadIsSumOfSquares(w, series, m);
    Rescale(annualQuad, gramQuad, squares, variance, k, (m - 1) as real, 252.0);
  }

  lemma AnnualQuadIsScaledGramQuad(w: seq<real>, series: seq<seq<real>>, m: nat, k: real)
    requires |w| == |series| && IsRect(series, m) && m >= 2
    requires k == 252.0 / (m - 1) as real
    ensures Quad(w, AnnualCovariance(SampleCovarianceMatrix(series, m)))
              == k * Quad(w, Gram(DemeanRows(series, m), m))
  {
    AnnualCovarianceIsScaledGram(series, m, k);
    QuadScaled(w, AnnualCovariance(SampleCovarianceMatrix(series, m)), Gram(DemeanRows(series, m), m), k);
  }

  /** The annualised covariance is the Gram matrix of the demeaned series, times 252 / (m - 1). */
  lemma AnnualCovarianceIsScaledGram(series: seq<seq<real>>, m: nat, k: real)
    requires IsRect(series, m) && m >= 2
    requires k == 252.0 / (m - 1) as real
    ensures
      var annual := AnnualCovariance(SampleCovarianceMatrix(series, m));
      var g := Gram(DemeanRows(series, m), m);
      forall i, j | 0 <= i < |series| && 0 <= j < |series| :: annual[i][j] == k * g[i][j]
  {
    forall i, j | 0 <= i < |series| && 0 <= j < |series|
      ensures AnnualCovariance(SampleCovarianceMatrix(series, m))[i][j]
                == k * Gram(DemeanRows(series, m), m)[i][j]
    {
      AnnualCovarianceEntry(series, m, k, i, j);
    }
  }

  lemma AnnualCovarianceEntry(series: seq<seq<real>>, m: nat, k: real, i: nat, j: nat)
    requires IsRect(series, m) && m >= 2 && i < |series| && j < |series|
    requires k == 252.0 / (m - 1) as real
    ensures AnnualCovariance(SampleCovarianceMatrix(series, m))[i][j]
              == k * Gram(DemeanRows(series, m), m)[i][j]
  {
    var cov := SampleCovarianceMatrix(series, m);
    var x := Dot(Demean(series[i]), Demean(series[j]));
    assert Gram(DemeanRows(series, m), m)[i][j] == x;
    assert cov[i][j] == x / (m - 1) as real;
    AnnualEntry(AnnualCovariance(cov)[i][j], cov[i][j], x, (m - 1) as real, 252.0, k);
  }

  /** The quadratic form of the demeaned Gram matrix is the sum of squared deviations of
      the combined series from its mean. */
  lemma GramQuadIsSumOfSquares(w: seq<real>, series: seq<seq<real>>, m: nat)
    requires |w| == |series| && IsRect(series, m) && m >= 2
    ensures Quad(w, Gram(DemeanRows(series, m), m))
              == Dot(Demean(VecMat(w, series, m)), Demean(VecMat(w, series, m)))
  {
    QuadOfGram(w, DemeanRows(series, m), m);
    DemeanOfCombination(w, series, m);
  }

  /** A weighted mean: (1 / count) times the weighted sum equals the combined sum over the
      count, once the weighted sum and the combined sum agree. */
  lemma ScaledQuotient(weightedMean: real, weightedSum: real, combinedSum: real, count: real, reciprocal: real)
    requires count != 0.0 && reciprocal == 1.0 / count
    requires weightedSum == combinedSum && weightedMean == reciprocal * weightedSum
    ensures weightedMean == combinedSum / count
  {
  }

  /** Dividing by a non-zero divisor is multiplying by its reciprocal. */
  lemma QuotientAsProduct(numerator: real, divisor: real)
    requires divisor != 0.0
    ensures numerator / divisor == (1.0 / divisor) * numerator
  {
  }

  /** An annualised covariance entry, (deviationProduct / (m - 1)) * 252, is the deviation
      product times the single factor 252 / (m - 1). */
  lemma AnnualEntry(
    annualEntry: real, dailyEntry: real, deviationProduct: real, degreesOfFreedom: real,
    annualFactor: real, scale: real)
    requires degreesOfFreedom != 0.0 && dailyEntry == deviationProduct / degreesOfFreedom
    requires annualEntry == dailyEntry * annualFactor && scale == annualFactor / degreesOfFreedom
    ensures annualEntry == scale * deviationProduct
  {
  }

  /** The annualised quadratic form, 252 / (m - 1) times the sum of squared deviations, is
      252 times the sample variance (that sum over m - 1). */
  lemma Rescale(
    annualQuad: real, gramQuad: real, squares: real, variance: real, scale: real,
    degreesOfFreedom: real, annualFactor: real)
    requires degreesOfFreedom != 0.0 && scale == annualFactor / degreesOfFreedom
    requires annualQuad == scale * gramQuad && gramQuad == squares
    requires variance == squares / degreesOfFreedom
    ensures annualQuad == annualFactor * variance
  {
  }
}
