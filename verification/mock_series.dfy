/** The demo price generator: a geometric random walk with a slight upward drift. The
    random numbers are a parameter; step i uses `draws[i - 1]`. */
module MockSeries {
  import opened Returns

  /** The simple return of one step for a draw u: (u - 0.48) * 0.03. A uniform draw moves
      the price by a factor in [0.9856, 1.0156), so never down to zero. */
  function StepReturn(u: real): (r: real)
    ensures IsUniform(u) ==> 0.9856 <= 1.0 + r < 1.0156
  {
    (u - 0.48) * 0.03
  }

  /** A uniform draw in [0, 1). */
  predicate IsUniform(u: real)
  {
    0.0 <= u < 1.0
  }

  /** The step returns of a run of draws, in order. */
  function StepReturns(draws: seq<real>): (rs: seq<real>)
    ensures |rs| == |draws|
  {
    seq(|draws|, i requires 0 <= i < |draws| => StepReturn(draws[i]))
  }

  /** The day count a caller gets by leaving it out. */
  const DefaultDays: real := 252.0

  /** The number of prices produced: the base price, then one more for every whole i >= 1
      with i < days. That is `days` for a whole count of at least 1, a fractional count
      rounded up, and 1 for anything up to 1. */
  function PriceCount(days: real): (n: nat)
    ensures n >= 1 && days <= n as real
    ensures n > 1 ==> (n - 1) as real < days
  {
    if days <= 1.0 then 1 else -((-days).Floor)
  }

  /** Left to its default, the generator produces 252 prices. */
  lemma DefaultPriceCount()
    ensures PriceCount(DefaultDays) == 252
  {
  }

  /** The generator. It starts at `base` and keeps stepping while the step number is below
      `days`, step i multiplying the last price by 1 + StepReturn(draws[i - 1]) (see
      MockStep); `draws` holds exactly the random numbers those steps consume. */
  method MockPriceHistory(base: real, days: real, draws: seq<real>) returns (prices: seq<real>)
    requires |draws| == PriceCount(days) - 1
    ensures |prices| == PriceCount(days) && prices[0] == base
    ensures prices == Compound(base, StepReturns(draws))
  {
    var rs := StepReturns(draws);
    prices := [base];
    var i := 1;
    while (i as real) < days
      invariant 1 <= i <= |draws| + 1
      invariant |prices| == i && prices[0] == base
      invariant forall j | 0 <= j < i :: prices[j] == Grown(base, rs, j)
      decreases |draws| + 1 - i
    {
      var dailyReturn := StepReturn(draws[i - 1]);
      assert dailyReturn == rs[i - 1];
      prices := prices + [prices[i - 1] * (1.0 + dailyReturn)];
      i := i + 1;
    }
  }

  /** Each generated price is the previous one grown by its draw's step return. */
  lemma MockStep(base: real, draws: seq<real>, i: nat)
    requires 1 <= i <= |draws|
    ensures Compound(base, StepReturns(draws))[i]
      == Compound(base, StepReturns(draws))[i - 1] * (1.0 + StepReturn(draws[i - 1]))
  {
    CompoundStep(base, StepReturns(draws), i - 1);
  }

  /** With a positive base every generated price is positive, and the returns of the
      generated series are exactly the step returns of the draws. */
  lemma MockPricesPositive(base: real, draws: seq<real>)
    requires 0.0 < base
    requires forall i | 0 <= i < |draws| :: IsUniform(draws[i])
    ensures forall i | 0 <= i < |draws| + 1 :: 0.0 < Compound(base, StepReturns(draws))[i]
    ensures Divisible(Compound(base, StepReturns(draws)))
    ensures DailyReturns(Compound(base, StepReturns(draws))) == StepReturns(draws)
  {
    var rs := StepReturns(draws);
    forall i | 0 <= i < |rs|
      ensures 0.0 < 1.0 + rs[i]
    {
      assert rs[i] == StepReturn(draws[i]);
    }
    forall i | 0 <= i < |rs| + 1
      ensures 0.0 < Compound(base, rs)[i]
    {
      GrownPositive(base, rs, i);
    }
    ReturnsOfCompound(base, rs);
  }

  /** Growing a positive start by factors each above zero stays positive. */
  lemma {:induction false} GrownPositive(p0: real, rs: seq<real>, i: nat)
    requires 0.0 < p0 && i <= |rs|
    requires forall j | 0 <= j < |rs| :: 0.0 < 1.0 + rs[j]
    ensures 0.0 < Grown(p0, rs, i)
  {
    if i > 0 {
      GrownPositive(p0, rs, i - 1);
      PositiveProduct(Grown(p0, rs, i - 1), 1.0 + rs[i - 1]);
    }
  }

  lemma PositiveProduct(a: real, b: real)
    requires 0.0 < a && 0.0 < b
    ensures 0.0 < a * b
  {
  }
}
