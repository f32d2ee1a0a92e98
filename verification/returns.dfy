/** Simple periodic returns of a price series, and compounding, their inverse. */
module Returns {

  /** Every price that a return divides by is non-zero. */
  predicate Divisible(prices: seq<real>)
  {
    forall i | 0 <= i < |prices| - 1 :: prices[i] != 0.0
  }

  /** Simple return of each step: (p[i+1] - p[i]) / p[i]. Fewer than two prices give
      no returns at all, not an error. */
  function DailyReturns(prices: seq<real>): (r: seq<real>)
    requires Divisible(prices)
    ensures |r| == if |prices| < 2 then 0 else |prices| - 1
  {
    if |prices| < 2 then []
    else seq(|prices| - 1, i requires 0 <= i < |prices| - 1 => (prices[i + 1] - prices[i]) / prices[i])
  }

  /** The price after i steps of a path that starts at `p0` and grows by `1 + rs[j]` at
      step j. */
  function Grown(p0: real, rs: seq<real>, i: nat): real
    requires i <= |rs|
  {
    if i == 0 then p0 else Grown(p0, rs, i - 1) * (1.0 + rs[i - 1])
  }

  /** The whole price path: the start and the price after every step. */
  function Compound(p0: real, rs: seq<real>): (p: seq<real>)
    ensures |p| == |rs| + 1 && p[0] == p0
  {
    seq(|rs| + 1, i requires 0 <= i <= |rs| => Grown(p0, rs, i))
  }

  /** Each compounded price is the previous one times its growth factor. */
  lemma CompoundStep(p0: real, rs: seq<real>, i: nat)
    requires i < |rs|
    ensures Compound(p0, rs)[i + 1] == Compound(p0, rs)[i] * (1.0 + rs[i])
  {
    assert Compound(p0, rs)[i + 1] == Grown(p0, rs, i + 1);
  }

  /** A path that starts off zero and never meets a factor of zero never reaches zero. */
  lemma CompoundNonZero(p0: real, rs: seq<real>)
    requires p0 != 0.0
    requires forall i | 0 <= i < |rs| :: 1.0 + rs[i] != 0.0
    ensures forall i | 0 <= i < |rs| + 1 :: Compound(p0, rs)[i] != 0.0
  {
    forall i | 0 <= i < |rs| + 1
      ensures Compound(p0, rs)[i] != 0.0
    {
      GrownNonZero(p0, rs, i);
    }
  }

  lemma {:induction false} GrownNonZero(p0: real, rs: seq<real>, i: nat)
    requires p0 != 0.0 && i <= |rs|
    requires forall j | 0 <= j < |rs| :: 1.0 + rs[j] != 0.0
    ensures Grown(p0, rs, i) != 0.0
  {
    if i > 0 {
      GrownNonZero(p0, rs, i - 1);
      NonZeroProduct(Grown(p0, rs, i - 1), 1.0 + rs[i - 1]);
    }
  }

  lemma NonZeroProduct(a: real, b: real)
    requires a != 0.0 && b != 0.0
    ensures a * b != 0.0
  {
  }

  /** Returns then compounding gives back the prices. */
  lemma CompoundOfReturns(prices: seq<real>)
    requires |prices| > 0 && Divisible(prices)
    ensures Compound(prices[0], DailyReturns(prices)) == prices
  {
    var rs := DailyReturns(prices);
    forall i | 0 <= i < |prices|
      ensures Compound(prices[0], rs)[i] == prices[i]
    {
      GrownFromReturns(prices, i);
    }
  }

  lemma {:induction false} GrownFromReturns(prices: seq<real>, i: nat)
    requires i < |prices| && Divisible(prices)
    ensures i <= |DailyReturns(prices)|
    ensures Grown(prices[0], DailyReturns(prices), i) == prices[i]
  {
    if i > 0 {
      var rs := DailyReturns(prices);
      GrownFromReturns(prices, i - 1);
      ReturnGrowth(prices[i - 1], prices[i], rs[i - 1]);
    }
  }

  /** Growing a price by its return towards the next price lands on the next price. */
  lemma ReturnGrowth(price: real, next: real, dailyReturn: real)
    requires price != 0.0 && dailyReturn == (next - price) / price
    ensures price * (1.0 + dailyReturn) == next
  {
    assert price * dailyReturn == next - price;
  }

  /** Compounding then taking returns gives back the returns. */
  lemma ReturnsOfCompound(p0: real, rs: seq<real>)
    requires p0 != 0.0
    requires forall i | 0 <= i < |rs| :: 1.0 + rs[i] != 0.0
    ensures Divisible(Compound(p0, rs))
    ensures DailyReturns(Compound(p0, rs)) == rs
  {
    var p := Compound(p0, rs);
    CompoundNonZero(p0, rs);
    assert Divisible(p);
    var d := DailyReturns(p);
    forall i | 0 <= i < |rs|
      ensures d[i] == rs[i]
    {
      CompoundStep(p0, rs, i);
      GrowthReturn(p[i], rs[i], p[i + 1], d[i]);
    }
    assert d == rs;
  }

  /** The return from a price to that price grown by `growth` is `growth`. */
  lemma GrowthReturn(price: real, growth: real, next: real, dailyReturn: real)
    requires price != 0.0 && next == price * (1.0 + growth) && dailyReturn == (next - price) / price
    ensures dailyReturn == growth
  {
    assert next - price == price * growth;
  }

  /** The worked example: prices 100, 101, 99, 105. */
  lemma DailyReturnsExample()
    ensures DailyReturns([100.0, 101.0, 99.0, 105.0]) == [1.0 / 100.0, -2.0 / 101.0, 6.0 / 99.0]
  {
  }
}
