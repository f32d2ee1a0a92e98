/** The covariance estimator: pairwise unbiased sample covariance of n return series. */
module Covariance {
  import opened Outcomes
  import opened Statistics
  import opened Matrices

  /** Some series is empty. */
  predicate HasEmptySeries(series: seq<seq<real>>)
  {
    exists i | 0 <= i < |series| :: |series[i]| == 0
  }

  /** The common length of the series (that of the first one; 0 when there are none). */
  function SampleCount(series: seq<seq<real>>): nat
  {
    if |series| == 0 then 0 else |series[0]|
  }

  /** Why the covariance matrix cannot be built, in the order the estimator meets the
      problems: means of every series first, then element-wise products of every pair,
      then the division by M - 1. */
  function CovarianceError(series: seq<seq<real>>): Option<QuantError>
  {
    if HasEmptySeries(series) then Some(InsufficientData)
    else if !IsRect(series, SampleCount(series)) then Some(DimensionMismatch)
    else if SampleCount(series) == 1 then Some(DegenerateSample)
    else None
  }

  /** The n x n matrix whose entry (i, j) is the unbiased sample covariance of series i
      and series j, for n series of a common length m >= 2. */
  function SampleCovarianceMatrix(series: seq<seq<real>>, m: nat): (cov: Matrix)
    requires IsRect(series, m) && m >= 2
    ensures |cov| == |series| && IsRect(cov, |series|)
  {
    seq(|series|, i requires 0 <= i < |series| =>
      seq(|series|, j requires 0 <= j < |series| => SampleCovariance(series[i], series[j])))
  }

  /** The covariance estimator: fails as the source does on empty or ragged input and on
      single-sample series; otherwise a symmetric matrix with the sample variances, which
      are never negative, on its diagonal. */
  function CovarianceMatrix(series: seq<seq<real>>): (r: Result<Matrix>)
    ensures r.Failure? <==> CovarianceError(series).Some?
    ensures r.Failure? ==> r.error == CovarianceError(series).value
    ensures r.Success? ==>
      && IsRect(series, SampleCount(series))
      && (|series| == 0 ==> r.value == [])
      && (|series| > 0 ==> SampleCount(series) >= 2 && r.value == SampleCovarianceMatrix(series, SampleCount(series)))
      && (forall i, j | 0 <= i < |series| && 0 <= j < |series| :: r.value[i][j] == r.value[j][i])
      && (forall i | 0 <= i < |series| :: r.value[i][i] == SampleVariance(series[i]) && 0.0 <= r.value[i][i])
  {
    match CovarianceError(series)
    case Some(e) => Failure(e)
    case None =>
      var m := SampleCount(series);
      if |series| == 0 then
        Success([])
      else
        CovarianceMatrixFacts(series, m);
        Success(SampleCovarianceMatrix(series, m))
  }

  lemma CovarianceMatrixFacts(series: seq<seq<real>>, m: nat)
    requires IsRect(series, m) && m >= 2
    ensures var cov := SampleCovarianceMatrix(series, m);
      && (forall i, j | 0 <= i < |series| && 0 <= j < |series| :: cov[i][j] == cov[j][i])
      && (forall i | 0 <= i < |series| :: cov[i][i] == SampleVariance(series[i]) && 0.0 <= cov[i][i])
  {
    var cov := SampleCovarianceMatrix(series, m);
    forall i, j | 0 <= i < |series| && 0 <= j < |series|
      ensures cov[i][j] == cov[j][i]
    {
      SampleCovarianceSymmetric(series[i], series[j]);
    }
    forall i | 0 <= i < |series|
      ensures 0.0 <= cov[i][i]
    {
      SampleVarianceNonNegative(series[i]);
    }
  }
}
