/** The random-search maximum-Sharpe allocator. Each iteration draws one uniform number
    per asset, divides the draws by their sum to get weights, evaluates them, and keeps the
    first weights that beat every earlier Sharpe ratio. The random numbers are a parameter:
    `draws[k]` is the vector of iteration k, and `|draws|` is the iteration count. */
module Optimizer {
  import opened Outcomes
  import opened Reals
  import opened SquareRoot
  import opened Metrics
  import opened Allocators

  /** One iteration's draws for n assets, each in [0, 1) as a uniform generator gives them. */
  predicate IsDraw(d: seq<real>, n: nat)
  {
    |d| == n && forall i | 0 <= i < |d| :: 0.0 <= d[i] < 1.0
  }

  /** Every iteration's draws are proper draws for n assets. */
  predicate AllDraws(draws: seq<seq<real>>, n: nat)
  {
    forall k | 0 <= k < |draws| :: |draws[k]| == n && IsDraw(draws[k], n)
  }

  /** Draws that can be turned into weights: either there are no assets, or the draws do not
      all vanish (dividing all-zero draws by their zero sum gives no number at all). */
  predicate Usable(d: seq<real>)
  {
    |d| == 0 || Sum(d) != 0.0
  }

  /** The weights one iteration tries: its draws divided by their sum. */
  function Candidate(d: seq<real>): (w: seq<real>)
    requires Usable(d)
    ensures |w| == |d|
    ensures forall i | 0 <= i < |d| :: w[i] * Sum(d) == d[i]
    ensures |d| > 0 ==> Sum(w) == 1.0
  {
    if |d| == 0 then []
    else
      NormalizeSumsToOne(d);
      CandidateShares(d);
      Normalize(d, Sum(d))
  }

  /** Each normalised draw times the draws' sum gives the draw back. */
  lemma CandidateShares(d: seq<real>)
    requires Sum(d) != 0.0
    ensures forall i | 0 <= i < |d| :: Normalize(d, Sum(d))[i] * Sum(d) == d[i]
  {
    NormalizeEntries(d, Sum(d));
  }

  /** Candidate weights from proper draws are fractions in [0, 1] that sum to 1, positive
      where the draw is positive. */
  lemma CandidateIsAllocation(d: seq<real>, n: nat)
    requires IsDraw(d, n) && Usable(d) && n > 0
    ensures |Candidate(d)| == n
    ensures Sum(Candidate(d)) == 1.0
    ensures forall i | 0 <= i < n :: 0.0 <= Candidate(d)[i] <= 1.0
    ensures forall i | 0 <= i < n :: 0.0 < d[i] ==> 0.0 < Candidate(d)[i]
  {
    assert AllNonNegative(d);
    NormalizeSumsToOne(d);
    NormalizeInUnit(d);
  }

  /** Whether the evaluator runs to the end on these data. It does on good data, and also
      on series of a single sample: there the covariance is 0 / 0, so the volatility is
      not a number, the test `volatility > 0` fails and the Sharpe ratio comes out as 0. */
  predicate Evaluates(n: nat, series: seq<seq<real>>)
  {
    MetricsError(n, series).None? || MetricsError(n, series) == Some(DegenerateSample)
  }

  /** The Sharpe ratio the evaluator reports for an iteration's candidate weights: 0 on
      single-sample series. */
  function SharpeOf(symbols: seq<string>, series: seq<seq<real>>, d: seq<real>, sqrt: real -> real): real
    requires IsSqrt(sqrt) && Evaluates(|symbols|, series)
    requires |d| == |symbols| && Usable(d)
  {
    if MetricsError(|symbols|, series).Some? then 0.0
    else CalculatePortfolioMetrics(symbols, Candidate(d), series, sqrt).value.sharpeRatio
  }

  /** The score of every iteration: the evaluator's Sharpe ratio for its candidate weights
      (0 when the series hold a single sample), or None when its draws give no weights. */
  function Scores(symbols: seq<string>, series: seq<seq<real>>, draws: seq<seq<real>>, sqrt: real -> real)
    : (s: seq<Option<real>>)
    requires IsSqrt(sqrt) && Evaluates(|symbols|, series)
    requires AllDraws(draws, |symbols|)
    ensures |s| == |draws|
    ensures forall k | 0 <= k < |draws| :: s[k].Some? <==> Usable(draws[k])
    ensures MetricsError(|symbols|, series).None? ==>
      forall k | 0 <= k < |draws| && Usable(draws[k]) ::
        s[k].value == CalculatePortfolioMetrics(symbols, Candidate(draws[k]), series, sqrt).value.sharpeRatio
    ensures MetricsError(|symbols|, series).Some? ==>
      forall k | 0 <= k < |draws| && s[k].Some? :: s[k].value == 0.0
  {
    seq(|draws|, k requires 0 <= k < |draws| =>
      if Usable(draws[k]) then Some(SharpeOf(symbols, series, draws[k], sqrt)) else None)
  }

  /** Position c holds a score at least every other score, and strictly above every earlier
      one: the answer of a search that replaces its best only on a strict improvement. */
  predicate IsFirstMax(scores: seq<Option<real>>, c: nat)
  {
    && c < |scores| && scores[c].Some?
    && (forall k | 0 <= k < |scores| && scores[k].Some? :: scores[k].value <= scores[c].value)
    && (forall k | 0 <= k < c && scores[k].Some? :: scores[k].value < scores[c].value)
  }

  /** At most one position is the first maximum, so the answer is determined by the scores. */
  lemma FirstMaxUnique(scores: seq<Option<real>>, c1: nat, c2: nat)
    requires IsFirstMax(scores, c1) && IsFirstMax(scores, c2)
    ensures c1 == c2
  {
    assert scores[c1].value == scores[c2].value;
  }

  /** The scan: the best score so far starts below every number (None standing for minus
      infinity) and is replaced only by a strictly larger score. */
  method FirstMax(scores: seq<Option<real>>) returns (chosen: Option<nat>)
    ensures chosen.None? <==> forall k | 0 <= k < |scores| :: scores[k].None?
    ensures chosen.Some? ==> IsFirstMax(scores, chosen.value)
  {
    var best: real := 0.0;
    chosen := None;
    for k := 0 to |scores|
      invariant chosen.None? <==> forall j | 0 <= j < k :: scores[j].None?
      invariant chosen.Some? ==>
        && chosen.value < k && scores[chosen.value] == Some(best)
        && (forall j | 0 <= j < k && scores[j].Some? :: scores[j].value <= best)
        && (forall j | 0 <= j < chosen.value && scores[j].Some? :: scores[j].value < best)
    {
      if scores[k].Some? && (chosen.None? || scores[k].value > best) {
        best, chosen := scores[k].value, Some(k);
      }
    }
  }

  /** The search. It fails exactly when some iteration runs and the evaluator refuses the
      data. Otherwise it returns the weights of the first iteration whose Sharpe ratio no
      other iteration beats, or equal weights when no iteration produced weights (in
      particular when there are no iterations). On single-sample series every score is 0,
      so the first iteration that produced weights is kept. */
  method MaxSharpeWeights(
    symbols: seq<string>, series: seq<seq<real>>, draws: seq<seq<real>>, sqrt: real -> real)
    returns (r: Result<seq<real>>, chosen: Option<nat>)
    requires IsSqrt(sqrt)
    requires AllDraws(draws, |symbols|)
    ensures r.Failure? <==> |draws| > 0 && !Evaluates(|symbols|, series)
    ensures r.Failure? ==> r.error == MetricsError(|symbols|, series).value && chosen.None?
    ensures r.Success? && chosen.None? ==>
      && r.value == EqualWeight(|symbols|)
      && forall k | 0 <= k < |draws| :: !Usable(draws[k])
    ensures r.Success? && chosen.Some? ==>
      && Evaluates(|symbols|, series)
      && IsFirstMax(Scores(symbols, series, draws, sqrt), chosen.value)
      && r.value == Candidate(draws[chosen.value])
    ensures r.Success? && chosen.Some? && MetricsError(|symbols|, series).Some? ==>
      forall k | 0 <= k < chosen.value :: !Usable(draws[k])
    ensures r.Success? ==> |r.value| == |symbols|
    ensures r.Success? && |symbols| > 0 ==>
      Sum(r.value) == 1.0 && forall i | 0 <= i < |symbols| :: 0.0 <= r.value[i] <= 1.0
  {
    var n := |symbols|;
    if |draws| == 0 {
      chosen := None;
    } else if !Evaluates(n, series) {
      return Failure(MetricsError(n, series).value), None;
    } else {
      chosen := FirstMax(Scores(symbols, series, draws, sqrt));
    }
    if chosen.Some? {
      r := Success(Candidate(draws[chosen.value]));
      if n > 0 {
        CandidateIsAllocation(draws[chosen.value], n);
      }
    } else {
      r := Success(EqualWeight(n));
      if n > 0 {
        EqualWeightInUnit(n);
      }
    }
  }

  /** Equal weights are fractions in [0, 1]. */
  lemma EqualWeightInUnit(n: nat)
    requires n > 0
    ensures forall i | 0 <= i < n :: 0.0 <= EqualWeight(n)[i] <= 1.0
  {
    EqualWeightIsNormalizedOnes(n);
    SumConst(n, 1.0);
    NormalizeInUnit(Const(n, 1.0));
  }
}
