# SimpliFolio portfolio engine in Dafny

A model of the computational core of SimpliFolio, a portfolio-optimisation web app:

- the quantitative engine `src/lib/quant.ts`: daily returns, the sample covariance
  matrix, portfolio metrics (annualised return, variance, volatility, Sharpe ratio against
  a 5% risk-free rate), the equal-weight, inverse-variance and random-search max-Sharpe
  allocators, and the mock price generator;
- the asset picker of `src/components/PortfolioInput.tsx`, as a state machine over
  (selected symbols, weight map);
- the relative-time label `timeAgo` of `src/components/NewsFeed.tsx`.

Arithmetic is over exact reals. The library helpers the engine borrows (`mean`, `std`,
`sum`, `dotMultiply`, the matrix product) are defined here as recursive sums, dot
products and a quadratic form. `std` is taken in its unbiased (n - 1) form, so it agrees
with the covariance diagonal. `Math.sqrt` is a parameter `sqrt` that every caller must
supply as a true square root (`SquareRoot.IsSqrt`). `Math.random` is a parameter too: a
sequence of draws in [0, 1). Where the engine throws, the model returns
`Outcomes.Result` with a `QuantError`:

- `InsufficientData`: a series is empty (the library refuses its mean or deviation);
- `DimensionMismatch`: lengths do not line up (the library refuses the element-wise product);
- `DegenerateSample`: the source would produce NaN or Infinity instead.

Modules follow the source: `Reals`, `Statistics`, `Matrices`, `Covariance`, `Returns`,
`Metrics`, `Allocators`, `Optimizer`, `MockSeries` for `quant.ts`; `PortfolioInput`;
`NewsFeed`. `Outcomes` and `SquareRoot` hold the shared error type and the square-root
contract.

`calculatePortfolioMetrics` never checks that there are as many weights as symbols. It
pairs `symbols[i]` with `weights[i]`, which is `undefined` past the end of the weights, so
`Metrics.Holding` carries an optional weight. The per-asset arithmetic does need one
weight per series, and the model fails otherwise, as the library's element-wise product
does.

## Model

| member | source | states |
|---|---|---|
| Returns.DailyReturns | src/lib/quant.ts:32-38 | one return per consecutive pair of prices, none (not an error) for fewer than two prices |
| Returns.DailyReturnsExample | src/lib/quant.ts:32-38 | prices 100, 101, 99, 105 give returns 1/100, -2/101, 6/99 |
| Returns.CompoundOfReturns | src/lib/quant.ts:32-38 | compounding the returns from the first price rebuilds the price series: returns lose nothing |
| Returns.ReturnsOfCompound | src/lib/quant.ts:32-38 | the returns of a compounded path are the growth rates it was built from |
| Statistics.SampleCovarianceSymmetric | src/lib/quant.ts:50-54 | the pairwise sample covariance does not depend on the order of the pair |
| Statistics.SampleVarianceNonNegative | src/lib/quant.ts:50-54 | a series' sample covariance with itself is never negative |
| Covariance.CovarianceMatrix | src/lib/quant.ts:43-59 | fails exactly when some series is empty, the series differ in length, or they hold a single sample (no series at all gives the empty matrix); otherwise an n x n symmetric matrix of unbiased sample covariances whose diagonal holds the sample variances, all non-negative |
| Metrics.CalculatePortfolioMetrics | src/lib/quant.ts:63-109 | fails exactly when the data are unusable; otherwise the expected return is 252 times the mean, and the variance 252 times the sample variance, of the weighted daily series; the weights pair with the symbols in caller order, not renormalised |
| Metrics.RiskFreeRate | src/lib/quant.ts:27 | the Sharpe ratio is measured against an annual risk-free rate of 5% |
| Metrics.Assemble | src/lib/quant.ts:96-100 | volatility is the non-negative root of the variance; the Sharpe ratio is (return - 0.05) / volatility, and exactly 0 when volatility is not positive |
| Metrics.AssembleIgnoresSqrt | src/lib/quant.ts:96-100 | any two valid square roots give the same metrics, so passing the root in loses nothing |
| Metrics.PairWeights | src/lib/quant.ts:107 | one holding per symbol, in order, with the weight at the same position, absent exactly past the end of the weights |
| Metrics.PortfolioStatistics | src/lib/quant.ts:70-94 | the dot product with annualised means and the quadratic form with the annualised covariance equal the annualised mean and sample variance of the combined series, so the variance is never negative |
| Metrics.ExpectedReturnIsCombinedMean | src/lib/quant.ts:70-79 | sum of w[i] * 252 * mean(r[i]) is 252 times the mean of the combined series |
| Metrics.VarianceIsCombinedSampleVariance | src/lib/quant.ts:80-94 | w' (252 Cov) w is 252 times the unbiased sample variance of sum w[i] r[i][t] |
| Allocators.EqualWeight | src/lib/quant.ts:114-116 | n equal weights that, for n > 0, are positive and sum to 1 |
| Allocators.EqualWeightIsNormalizedOnes | src/lib/quant.ts:114-116 | equal weights are n equal draws divided by their sum, the same rule every allocator uses |
| Allocators.NormalizeSumsToOne | src/lib/quant.ts:129-131 | entries divided by their non-zero sum sum to 1 |
| Allocators.NormalizeInUnit | src/lib/quant.ts:129-131 | non-negative entries divided by their sum lie in [0, 1] and stay positive where the entry is |
| Allocators.NormalizeScaleInvariant | src/lib/quant.ts:123-131 | dividing by the sum ignores a positive common factor, which is why the sqrt(252) annualisation cancels |
| Allocators.AnnualVolatility | src/lib/quant.ts:123-125 | a non-negative number whose square is 252 times the sample variance |
| Allocators.InverseVariances | src/lib/quant.ts:123-128 | one positive 1 / v^2 per asset, the reciprocal of 252 times its sample variance |
| Allocators.InverseVariancesAreScaledDaily | src/lib/quant.ts:123-128 | 1 / v^2 for the annualised volatility v is the daily inverse sample variance divided by 252 |
| Allocators.MinVarianceWeights | src/lib/quant.ts:122-132 | fails exactly on an empty or degenerate series; otherwise returns (1/var_i) / sum_j (1/var_j), positive and summing to 1 |
| Allocators.MinVarianceBalance | src/lib/quant.ts:128-131 | weight times variance is the same for every asset, so a lower-variance asset never gets a smaller weight |
| Optimizer.CandidateIsAllocation | src/lib/quant.ts:149-151 | draws divided by their sum are weights in [0, 1] summing to 1, positive where the draw is |
| Optimizer.Candidate | src/lib/quant.ts:149-151 | each weight times the draws' sum gives back its draw, and the weights sum to 1 |
| Optimizer.Scores | src/lib/quant.ts:149-161 | an iteration scores exactly when its draws give weights; the score is the evaluator's Sharpe ratio of its weights, and 0 on single-sample series, where the source's volatility is not a number |
| Optimizer.FirstMax | src/lib/quant.ts:144-162 | the scan that replaces its best only on a strict improvement, starting below every number, finds the first position of the largest score, and nothing when no iteration scored |
| Optimizer.FirstMaxUnique | src/lib/quant.ts:159-162 | at most one position is the first maximum, so the answer is determined by the draws |
| Optimizer.MaxSharpeWeights | src/lib/quant.ts:138-166 | fails exactly when an iteration runs on data the evaluator throws on; otherwise the weights of the first iteration with the highest Sharpe ratio, or equal weights with no usable iteration, either way in [0, 1] and summing to 1; on single-sample series every score is 0, so the first usable iteration wins |
| MockSeries.PriceCount | src/lib/quant.ts:175-176 | the smallest count of at least 1 that reaches `days`: `days` itself when whole, rounded up when fractional, 1 for anything up to 1 |
| MockSeries.DefaultPriceCount | src/lib/quant.ts:173 | the default of 252 days gives 252 prices |
| MockSeries.StepReturn | src/lib/quant.ts:177 | a draw in [0, 1) moves the price by a factor in [0.9856, 1.0156) |
| MockSeries.MockPriceHistory | src/lib/quant.ts:171-181 | PriceCount(days) prices starting at the base, compounded by the step returns of exactly the draws the steps consume |
| MockSeries.MockStep | src/lib/quant.ts:176-179 | each generated price is the previous one times 1 + (u - 0.48) * 0.03 |
| MockSeries.MockPricesPositive | src/lib/quant.ts:171-181 | with a positive base every price is positive, and the daily returns of the series are exactly the step returns |
| PortfolioInput.Initial | src/components/PortfolioInput.tsx:35-44 | the starting three symbols are distinct, offered, weighted, and total 100 |
| PortfolioInput.Toggle | src/components/PortfolioInput.tsx:46-66 | removal is refused at two symbols and addition at eight; a removal drops exactly that symbol and its weight, keeps the other keys and their values, and adds no key beyond the selected symbols; an addition appends the symbol and keeps only the selected keys; after a change every selected symbol weighs 100 / count |
| PortfolioInput.ToggleValid | src/components/PortfolioInput.tsx:46-66 | from a valid state a toggle keeps 2 to 8 distinct, weighted symbols |
| PortfolioInput.ToggleRemoves | src/components/PortfolioInput.tsx:49 | a removal deletes exactly the toggled position and keeps the order of the rest |
| PortfolioInput.ToggleTwice | src/components/PortfolioInput.tsx:47-59 | adding a symbol and toggling it again restores the selection |
| PortfolioInput.ToggleTotal | src/components/PortfolioInput.tsx:51-64 | after a toggle that changes the selection the displayed total is exactly 100 |
| PortfolioInput.UpdateWeight | src/components/PortfolioInput.tsx:68-70 | sets only that symbol's weight; every other entry is unchanged |
| PortfolioInput.UpdateWeightTotal | src/components/PortfolioInput.tsx:68-81 | moving a selected symbol's slider changes the total by the difference; any other key leaves it alone |
| PortfolioInput.RunningTotalIsSum | src/components/PortfolioInput.tsx:78-81 | the left fold that adds each weight to an accumulator, first to last, ends at the accumulator plus the sum of the weights |
| PortfolioInput.ActualTotalIsRunningSum | src/components/PortfolioInput.tsx:78-81 | the displayed total is the display's left fold over the selected symbols' weights (a missing weight counting 0), started at 0 |
| PortfolioInput.ActualTotalOnlySelected | src/components/PortfolioInput.tsx:78-81 | keys of the weight map that are not selected never affect the total |
| PortfolioInput.Submit | src/components/PortfolioInput.tsx:83-88 | one asset per selected symbol, in selection order, weight / 100 with a missing weight read as 0 |
| PortfolioInput.SubmitTotal | src/components/PortfolioInput.tsx:78-88 | the submitted fractions sum to the displayed total divided by 100 |
| NewsFeed.ElapsedSeconds | src/components/NewsFeed.tsx:14 | whole elapsed seconds, rounded down, negative for a future timestamp |
| NewsFeed.Bucket | src/components/NewsFeed.tsx:15-18 | exactly one bucket per elapsed time: under 60 is "just now"; minutes 1..59 below an hour, hours 1..23 below a day, days at least 1 beyond, each count the whole units elapsed |
| NewsFeed.BucketMonotone | src/components/NewsFeed.tsx:15-18 | a longer elapsed time never lands in a finer unit, nor a smaller count in the same unit |
| NewsFeed.DigitsValueOfNatToString | src/components/NewsFeed.tsx:16-18 | the decimal rendering of a count reads back as that count |
| NewsFeed.ParseRender | src/components/NewsFeed.tsx:15-18 | every label reads back as its bucket, so distinct buckets never share a label |
| NewsFeed.TimeAgo | src/components/NewsFeed.tsx:13-19 | the label reads back as the bucket of the elapsed whole seconds, and is the only text that does, so it is exactly the printed form with no leading zeros |
| NewsFeed.NatToStringOfDigitsValue | src/components/NewsFeed.tsx:16-18 | a count printed without leading zeros, read and printed again, is unchanged |
| NewsFeed.RenderOfParse | src/components/NewsFeed.tsx:15-18 | any text that reads back as a bucket is that bucket's label, so "05m ago" is never a label |
| NewsFeed.LabelUnique | src/components/NewsFeed.tsx:15-18 | each bucket has exactly one text that reads back as it |
| NewsFeed.TimeAgoJustNow | src/components/NewsFeed.tsx:13-19 | the label is "just now" exactly when less than a minute has elapsed |

## Left out

- Floating point: rounding, NaN and Infinity are not modelled; all arithmetic is exact.
  The places where the source would produce NaN or Infinity are handled one by one in
  the lines below.
- Returns.DailyReturns: requires every price it divides by to be non-zero. The source
  would return Infinity or NaN there. The prices route keeps only positive closing prices
  (`src/app/api/market/prices/route.ts:68`), and generated prices are positive
  (`MockSeries.MockPricesPositive`), so no caller here passes a zero.
- Covariance.CovarianceMatrix: series of one sample divide 0 by 0 in the source, giving a
  NaN matrix. The model fails with `DegenerateSample`. The optimizer, where the source
  turns those NaNs into a Sharpe ratio of 0, models that outcome (`Optimizer.Scores`).
- Metrics.CalculatePortfolioMetrics: fails with `DegenerateSample` on single-sample
  series, where the source returns NaN variance and volatility with a Sharpe ratio of 0.
- Metrics.CalculatePortfolioMetrics: with no assets, the model takes the expected return
  and variance as 0. The library's behaviour on empty matrices is not part of this model.
- Allocators.MinVarianceWeights: a series with fewer than two samples, or with zero
  variance, gives Infinity or NaN weights in the source. The model fails with
  `DegenerateSample`.
- Optimizer.MaxSharpeWeights: an iteration whose draws are all zero divides by a zero
  sum. In the source its NaN weights score a Sharpe ratio of 0 and can be kept. The
  model skips such an iteration (its draws are not `Usable`). Uniform draws hit this
  with probability zero.
- Optimizer.MaxSharpeWeights: the iteration count (5000 by default) is the number of
  draw vectors supplied.
- MockSeries.MockPriceHistory: the day count is a parameter; its default of 252 appears
  only as `MockSeries.DefaultDays`. A NaN day count is not modelled.
- `Math.sqrt` and `Math.random` are parameters (`sqrt`, the draws), not implementations.
- `Date.now()` is the `nowMs` parameter of `NewsFeed.TimeAgo`.
- The React state wiring, the slider bounds and rendering, and the dead `totalWeight`
  computation in `PortfolioInput.tsx` (always 0, never used) are left out.
- MockSeries.MockPriceHistory: the per-step growth is stated by `MockSeries.MockStep`
  on the `Compound` path the method returns, not as a separate clause of the method.
- Network and page code is not part of this model: market, news and AI routes, the
  optimizer page, authentication and presentation components.
