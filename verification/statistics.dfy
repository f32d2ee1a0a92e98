/** Sample statistics of one return series: the `mean` and `std` helpers the
    engine borrows, with `std` taken in its unbiased (N - 1) form. */
module Statistics {
  import opened Reals

  /** Arithmetic mean; the library refuses an empty series. */
  function Mean(s: seq<real>): real
    requires |s| > 0
  {
    Sum(s) / |s| as real
  }

  /** The series minus its mean. */
  function Demean(s: seq<real>): (d: seq<real>)
    requires |s| > 0
    ensures |d| == |s|
  {
    seq(|s|, i requires 0 <= i < |s| => s[i] - Mean(s))
  }

  /** Unbiased sample covariance of two series of equal length (Bessel's correction). */
  function SampleCovariance(a: seq<real>, b: seq<real>): real
    requires |a| == |b| >= 2
  {
    Dot(Demean(a), Demean(b)) / (|a| - 1) as real
  }

  /** Unbiased sample variance: the covariance of a series with itself. */
  function SampleVariance(a: seq<real>): real
    requires |a| >= 2
  {
    SampleCovariance(a, a)
  }

  lemma SampleCovarianceSymmetric(a: seq<real>, b: seq<real>)
    requires |a| == |b| >= 2
    ensures SampleCovariance(a, b) == SampleCovariance(b, a)
  {
    DotCommutes(Demean(a), Demean(b));
  }

  lemma SampleVarianceNonNegative(a: seq<real>)
    requires |a| >= 2
    ensures 0.0 <= SampleVariance(a)
  {
    DotSelfNonNegative(Demean(a));
  }
}
