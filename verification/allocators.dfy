/** The two baseline allocators: equal weights, and inverse-variance weights as a
    heuristic stand-in for the minimum-variance portfolio (cross-asset covariance is
    deliberately ignored). */
module Allocators {
  import opened Outcomes
  import opened Reals
  import opened SquareRoot
  import opened Statistics
  import opened Covariance

  /** Each entry divided by `total`, the way the allocators turn raw scores into weights
      (callers pass the sum of the entries). The body multiplies by the reciprocal, which
      is the same in exact arithmetic (see NormalizeEntry). */
  function Normalize(x: seq<real>, total: real): (r: seq<real>)
    requires total != 0.0
    ensures |r| == |x|
  {
    Scale(1.0 / total, x)
  }

  /** Each entry is divided by the total, so scaling back by the total restores it. */
  lemma NormalizeEntry(x: seq<real>, total: real, i: nat)
    requires total != 0.0 && i < |x|
    ensures Normalize(x, total)[i] * total == x[i]
    ensures Normalize(x, total)[i] == x[i] / total
  {
    Share(x[i], total, 1.0 / total, Normalize(x, total)[i]);
  }

  /** Every entry scaled back by the total is restored. */
  lemma NormalizeEntries(x: seq<real>, total: real)
    requires total != 0.0
    ensures forall i | 0 <= i < |x| :: Normalize(x, total)[i] * total == x[i]
  {
    forall i | 0 <= i < |x|
      ensures Normalize(x, total)[i] * total == x[i]
    {
      NormalizeEntry(x, total, i);
    }
  }

  /** An entry times the reciprocal of the total is its share: share * total gives the
      entry back. */
  lemma Share(entry: real, total: real, reciprocal: real, share: real)
    requires total != 0.0 && reciprocal == 1.0 / total && share == reciprocal * entry
    ensures share * total == entry && share == entry / total
  {
  }

  lemma NormalizeTotal(x: seq<real>, total: real)
    requires total != 0.0
    ensures Sum(Normalize(x, total)) == (1.0 / total) * Sum(x)
  {
    SumScale(1.0 / total, x);
  }

  /** The reciprocal of a non-zero total times the total is 1. */
  lemma OneOver(total: real, product: real)
    requires total != 0.0 && product == (1.0 / total) * total
    ensures product == 1.0
  {
  }

  /** Divided by their own sum, entries sum to 1. */
  lemma NormalizeSumsToOne(x: seq<real>)
    requires Sum(x) != 0.0
    ensures Sum(Normalize(x, Sum(x))) == 1.0
  {
    NormalizeTotal(x, Sum(x));
    OneOver(Sum(x), Sum(Normalize(x, Sum(x))));
  }

  /** Non-negative entries divided by their own sum are fractions in [0, 1], positive
      where the entry is positive. */
  lemma NormalizeInUnit(x: seq<real>)
    requires Sum(x) != 0.0 && AllNonNegative(x)
    ensures forall i | 0 <= i < |x| :: 0.0 <= Normalize(x, Sum(x))[i] <= 1.0
    ensures forall i | 0 <= i < |x| :: 0.0 < x[i] ==> 0.0 < Normalize(x, Sum(x))[i]
  {
    SumNonNegative(x);
    forall i | 0 <= i < |x|
      ensures 0.0 <= Normalize(x, Sum(x))[i] <= 1.0
      ensures 0.0 < x[i] ==> 0.0 < Normalize(x, Sum(x))[i]
    {
      EntryAtMostSum(x, i);
      NormalizeEntry(x, Sum(x), i);
      Fraction(x[i], Sum(x), Normalize(x, Sum(x))[i]);
    }
  }

  /** A non-negative entry no larger than the total is a share in [0, 1], positive when the
      entry is. */
  lemma Fraction(entry: real, total: real, share: real)
    requires 0.0 <= entry <= total && total != 0.0 && share == entry / total
    ensures 0.0 <= share <= 1.0
    ensures 0.0 < entry ==> 0.0 < share
  {
  }

  /** Dividing by the sum is blind to a positive rescaling of the input. */
  lemma NormalizeScaleInvariant(c: real, x: seq<real>)
    requires 0.0 < c && Sum(x) != 0.0
    ensures Sum(Scale(c, x)) == c * Sum(x) != 0.0
    ensures Normalize(Scale(c, x), Sum(Scale(c, x))) == Normalize(x, Sum(x))
  {
    SumScale(c, x);
    NormalizeScaled(c, x, Sum(x));
    assert Normalize(Scale(c, x), Sum(Scale(c, x))) == Normalize(Scale(c, x), c * Sum(x));
  }

  /** Scaling the entries and the total by the same factor leaves the shares unchanged. */
  lemma NormalizeScaled(factor: real, x: seq<real>, total: real)
    requires 0.0 < factor && total != 0.0
    ensures factor * total != 0.0
    ensures Normalize(Scale(factor, x), factor * total) == Normalize(x, total)
  {
    var reciprocal := 1.0 / (factor * total);
    ScaleScale(reciprocal, factor, x);
    CancelScale(factor, total, reciprocal);
    assert Scale(reciprocal * factor, x) == Scale(1.0 / total, x);
  }

  /** 1 / (factor * total) times the factor is 1 / total. */
  lemma CancelScale(factor: real, total: real, reciprocal: real)
    requires factor != 0.0 && total != 0.0 && reciprocal == 1.0 / (factor * total)
    ensures reciprocal * factor == 1.0 / total
  {
  }

  /** n weights of 1/n each. */
  function EqualWeight(n: nat): (r: seq<real>)
    ensures |r| == n
    ensures forall i, j | 0 <= i < n && 0 <= j < n :: r[i] == r[j]
    ensures n > 0 ==> Sum(r) == 1.0 && AllPositive(r)
  {
    var r := seq(n, i requires 0 <= i < n => 1.0 / n as real);
    if n == 0 then r
    else
      assert r == Const(n, 1.0 / n as real);
      SumConst(n, 1.0 / n as real);
      r
  }

  /** Equal weights are what dividing n equal draws by their sum gives. */
  lemma EqualWeightIsNormalizedOnes(n: nat)
    requires n > 0
    ensures Sum(Const(n, 1.0)) == n as real
      && EqualWeight(n) == Normalize(Const(n, 1.0), Sum(Const(n, 1.0)))
  {
    SumConst(n, 1.0);
    forall i | 0 <= i < n
      ensures EqualWeight(n)[i] == Normalize(Const(n, 1.0), n as real)[i]
    {
      NormalizeEntry(Const(n, 1.0), n as real, i);
    }
  }

  /** Every series has a finite positive inverse variance: at least two samples, and some
      spread. */
  predicate AllSpread(series: seq<seq<real>>)
  {
    forall i | 0 <= i < |series| :: |series[i]| >= 2 && SampleVariance(series[i]) != 0.0
  }

  /** Why inverse-variance weights cannot be produced: the library refuses the standard
      deviation of an empty series; a degenerate series makes some 1 / v^2 infinite. */
  function MinVarianceError(series: seq<seq<real>>): Option<QuantError>
  {
    if HasEmptySeries(series) then Some(InsufficientData)
    else if !AllSpread(series) then Some(DegenerateSample)
    else None
  }

  /** Annualised volatility of one series: its sample standard deviation times sqrt(252). */
  function AnnualVolatility(s: seq<real>, sqrt: real -> real): (v: real)
    requires IsSqrt(sqrt) && |s| >= 2
    ensures 0.0 <= v && v * v == 252.0 * SampleVariance(s)
  {
    SampleVarianceNonNegative(s);
    SqrtFacts(sqrt, SampleVariance(s));
    SqrtFacts(sqrt, 252.0);
    SquareOfRootProduct(sqrt, SampleVariance(s), 252.0);
    sqrt(SampleVariance(s)) * sqrt(252.0)
  }

  /** 1 / v^2 for each asset's annualised volatility v: finite and positive, since every
      series has some spread. */
  function InverseVariances(series: seq<seq<real>>, sqrt: real -> real): (iv: seq<real>)
    requires IsSqrt(sqrt) && AllSpread(series)
    ensures |iv| == |series|
    ensures forall i | 0 <= i < |series| ::
      0.0 < iv[i] && iv[i] * (252.0 * SampleVariance(series[i])) == 1.0
  {
    SpreadVolatilityPositive(series, sqrt);
    seq(|series|, i requires 0 <= i < |series| =>
      var v := AnnualVolatility(series[i], sqrt);
      1.0 / (v * v))
  }

  /** Every series with some spread has a positive annualised variance. */
  lemma SpreadVolatilityPositive(series: seq<seq<real>>, sqrt: real -> real)
    requires IsSqrt(sqrt) && AllSpread(series)
    ensures forall i | 0 <= i < |series| ::
      0.0 < AnnualVolatility(series[i], sqrt) * AnnualVolatility(series[i], sqrt)
  {
    forall i | 0 <= i < |series|
      ensures 0.0 < AnnualVolatility(series[i], sqrt) * AnnualVolatility(series[i], sqrt)
    {
      SampleVarianceNonNegative(series[i]);
    }
  }

  /** The reference weighting, in daily units: 1 / sample variance of each asset. */
  function DailyInverseVariances(series: seq<seq<real>>): (d: seq<real>)
    requires AllSpread(series)
    ensures |d| == |series|
  {
    seq(|series|, i requires 0 <= i < |series| => 1.0 / SampleVariance(series[i]))
  }

  /** The annualised inverse variances are the daily ones divided by 252. */
  lemma InverseVariancesAreScaledDaily(series: seq<seq<real>>, sqrt: real -> real)
    requires IsSqrt(sqrt) && AllSpread(series)
    ensures InverseVariances(series, sqrt) == Scale(1.0 / 252.0, DailyInverseVariances(series))
  {
    var iv := InverseVariances(series, sqrt);
    var d := DailyInverseVariances(series);
    forall i | 0 <= i < |series|
      ensures iv[i] == Scale(1.0 / 252.0, d)[i]
    {
      var v := AnnualVolatility(series[i], sqrt);
      SampleVarianceNonNegative(series[i]);
      InverseOfAnnualised(v * v, SampleVariance(series[i]), iv[i], d[i]);
    }
  }

  lemma InverseOfAnnualised(vv: real, variance: real, annual: real, daily: real)
    requires 0.0 < variance && vv == 252.0 * variance
    requires annual == 1.0 / vv && daily == 1.0 / variance
    ensures annual == (1.0 / 252.0) * daily
  {
  }

  /** Daily inverse variances are positive and so is their total. */
  lemma DailyInverseVariancesPositive(series: seq<seq<real>>)
    requires AllSpread(series) && |series| > 0
    ensures AllPositive(DailyInverseVariances(series))
    ensures 0.0 < Sum(DailyInverseVariances(series))
  {
    var d := DailyInverseVariances(series);
    forall i | 0 <= i < |series|
      ensures 0.0 < d[i]
    {
      SampleVarianceNonNegative(series[i]);
    }
    SumPositive(d);
  }

  /** The weights the inverse-variance allocator promises: the daily inverse variances
      divided by their sum (empty for no assets). */
  function InverseVarianceReference(series: seq<seq<real>>): (w: seq<real>)
    requires AllSpread(series)
    ensures |w| == |series|
  {
    if |series| == 0 then []
    else
      DailyInverseVariancesPositive(series);
      var d := DailyInverseVariances(series);
      Normalize(d, Sum(d))
  }

  /** The inverse-variance allocator. On success the weights are exactly the reference
      weights (the annualisation factor cancels); they are positive and sum to 1. See
      MinVarianceBalance for how they compare with each other. */
  function MinVarianceWeights(series: seq<seq<real>>, sqrt: real -> real): (r: Result<seq<real>>)
    requires IsSqrt(sqrt)
    ensures r.Failure? <==> MinVarianceError(series).Some?
    ensures r.Failure? ==> r.error == MinVarianceError(series).value
    ensures r.Success? ==>
      && AllSpread(series)
      && r.value == InverseVarianceReference(series)
      && |r.value| == |series|
      && AllPositive(r.value)
      && (|series| > 0 ==> Sum(r.value) == 1.0)
  {
    match MinVarianceError(series)
    case Some(e) => Failure(e)
    case None =>
      var iv := InverseVariances(series, sqrt);
      if |series| == 0 then
        Success([])
      else
        var d := DailyInverseVariances(series);
        InverseVariancesAreScaledDaily(series, sqrt);
        DailyInverseVariancesPositive(series);
        NormalizeScaleInvariant(1.0 / 252.0, d);
        NormalizeSumsToOne(d);
        NormalizeInUnit(d);
        Success(Normalize(iv, Sum(iv)))
  }

  /** Every asset's weight times its variance is the same, so an asset with a smaller
      variance never gets a smaller weight. */
  lemma MinVarianceBalance(series: seq<seq<real>>)
    requires AllSpread(series)
    ensures forall i, j | 0 <= i < |series| && 0 <= j < |series| ::
      InverseVarianceReference(series)[i] * SampleVariance(series[i])
        == InverseVarianceReference(series)[j] * SampleVariance(series[j])
    ensures forall i, j | 0 <= i < |series| && 0 <= j < |series| ::
      SampleVariance(series[i]) <= SampleVariance(series[j]) ==>
        InverseVarianceReference(series)[j] <= InverseVarianceReference(series)[i]
  {
    forall i, j | 0 <= i < |series| && 0 <= j < |series|
      ensures InverseVarianceReference(series)[i] * SampleVariance(series[i])
        == InverseVarianceReference(series)[j] * SampleVariance(series[j])
    {
      BalanceEntry(series, i);
      BalanceEntry(series, j);
    }
    forall i, j | 0 <= i < |series| && 0 <= j < |series| &&
      SampleVariance(series[i]) <= SampleVariance(series[j])
      ensures InverseVarianceReference(series)[j] <= InverseVarianceReference(series)[i]
    {
      BalanceOrder(series, i, j);
    }
  }

  lemma BalanceOrder(series: seq<seq<real>>, i: nat, j: nat)
    requires AllSpread(series) && i < |series| && j < |series|
    requires SampleVariance(series[i]) <= SampleVariance(series[j])
    ensures InverseVarianceReference(series)[j] <= InverseVarianceReference(series)[i]
  {
    var d := DailyInverseVariances(series);
    DailyInverseVariancesPositive(series);
    assert InverseVarianceReference(series) == Normalize(d, Sum(d));
    assert 0.0 < SampleVariance(series[i]) by {
      assert SampleVariance(series[i]) != 0.0;
      SampleVarianceNonNegative(series[i]);
    }
    ReciprocalAntitone(SampleVariance(series[i]), SampleVariance(series[j]));
    NormalizeMonotone(d, Sum(d), j, i);
  }

  /** A larger positive number has a smaller reciprocal. */
  lemma ReciprocalAntitone(smaller: real, larger: real)
    requires 0.0 < smaller <= larger
    ensures 1.0 / larger <= 1.0 / smaller
  {
    assert 1.0 / larger * smaller <= 1.0 / larger * larger;
  }

  /** Dividing by a positive total keeps the order of the entries. */
  lemma NormalizeMonotone(x: seq<real>, total: real, i: nat, j: nat)
    requires 0.0 < total && i < |x| && j < |x| && x[i] <= x[j]
    ensures Normalize(x, total)[i] <= Normalize(x, total)[j]
  {
    var k := 1.0 / total;
    assert 0.0 < k;
    assert k * x[i] <= k * x[j];
  }

  lemma BalanceEntry(series: seq<seq<real>>, i: nat)
    requires AllSpread(series) && i < |series|
    ensures 0.0 < Sum(DailyInverseVariances(series))
    ensures InverseVarianceReference(series)[i] * SampleVariance(series[i])
              == 1.0 / Sum(DailyInverseVariances(series))
    ensures 0.0 < 1.0 / Sum(DailyInverseVariances(series))
  {
    var d := DailyInverseVariances(series);
    DailyInverseVariancesPositive(series);
    assert InverseVarianceReference(series) == Normalize(d, Sum(d));
    assert 0.0 < SampleVariance(series[i]) by {
      assert SampleVariance(series[i]) != 0.0;
      SampleVarianceNonNegative(series[i]);
    }
    NormalizeReciprocal(d, Sum(d), i, SampleVariance(series[i]));
  }

  /** An entry 1 / variance divided by a positive total, times the variance, is 1 / total. */
  lemma NormalizeReciprocal(x: seq<real>, total: real, i: nat, variance: real)
    requires 0.0 < total && i < |x| && 0.0 < variance && x[i] == 1.0 / variance
    ensures Normalize(x, total)[i] * variance == 1.0 / total
    ensures 0.0 < 1.0 / total
  {
    NormalizeEntry(x, total, i);
    BalancedShare(Normalize(x, total)[i], total, variance, x[i]);
  }

  /** A weight whose share of the total is 1 / variance, times that variance, is 1 / total. */
  lemma BalancedShare(weight: real, total: real, variance: real, inverseVariance: real)
    requires 0.0 < total && 0.0 < variance && inverseVariance == 1.0 / variance
    requires weight * total == inverseVariance
    ensures weight * variance == 1.0 / total && 0.0 < 1.0 / total
  {
    assert weight == inverseVariance / total;
  }
}
