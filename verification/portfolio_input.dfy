/** The asset picker: the selected symbols, in the order they were picked, and a weight in
    percent per symbol. Toggling a symbol adds or removes it within the 2..8 bounds and resets
    the weights to equal shares; a slider sets one weight; submitting turns percentages into
    fractions. */
module PortfolioInput {
  import opened Reals

  /** The symbols the picker offers. */
  const AvailableSymbols: seq<string> := [
    "AAPL", "MSFT", "GOOGL", "AMZN", "TSLA", "NVDA", "META", "JPM", "V",
    "JNJ", "WMT", "PG", "MA", "HD", "DIS", "BAC", "XOM", "PFE"]

  const MinAssets: nat := 2
  const MaxAssets: nat := 8

  datatype Selection = Selection(symbols: seq<string>, weights: map<string, real>)

  /** One submitted asset, its weight as a fraction. */
  datatype Asset = Asset(symbol: string, weight: real)

  /** The starting state: three distinct listed symbols whose weights total 100. */
  function Initial(): (st: Selection)
    ensures Valid(st) && |st.symbols| == 3
    ensures forall s | s in st.symbols :: s in AvailableSymbols
    ensures ActualTotal(st) == 100.0
  {
    Selection(["AAPL", "MSFT", "GOOGL"], map["AAPL" := 33.33, "MSFT" := 33.33, "GOOGL" := 33.34])
  }

  predicate NoDuplicates(xs: seq<string>)
  {
    forall i, j | 0 <= i < j < |xs| :: xs[i] != xs[j]
  }

  /** The invariant every reachable state keeps: 2 to 8 distinct symbols, each with a
      weight. Other keys may linger in the weight map. */
  predicate Valid(st: Selection)
  {
    && MinAssets <= |st.symbols| <= MaxAssets
    && NoDuplicates(st.symbols)
    && forall s | s in st.symbols :: s in st.weights
  }

  /** A symbol's weight, with a missing entry read as 0. */
  function WeightOf(weights: map<string, real>, s: string): real
  {
    if s in weights then weights[s] else 0.0
  }

  /** `xs` without any occurrence of `x`, the rest in their order. */
  function Remove(xs: seq<string>, x: string): (r: seq<string>)
    ensures forall s :: s in r <==> s in xs && s != x
    ensures |r| <= |xs|
  {
    if |xs| == 0 then []
    else if xs[0] == x then Remove(xs[1..], x)
    else [xs[0]] + Remove(xs[1..], x)
  }

  /** Every symbol of `symbols` mapped to `share`; `rest` supplies the other keys. */
  function Spread(rest: map<string, real>, symbols: seq<string>, share: real): (w: map<string, real>)
    ensures w.Keys == rest.Keys + set s | s in symbols
    ensures forall s | s in symbols :: w[s] == share
    ensures forall k | k in rest && k !in symbols :: w[k] == rest[k]
  {
    map k | k in rest.Keys + (set s | s in symbols) :: if k in symbols then share else rest[k]
  }

  /** Whether toggling `symbol` changes the selection: removal needs more than two selected
      symbols, addition fewer than eight. */
  predicate Changes(st: Selection, symbol: string)
  {
    if symbol in st.symbols then |st.symbols| > MinAssets else |st.symbols| < MaxAssets
  }

  /** Toggle one symbol. A selected symbol is removed unless only two are left; an unselected
      one is appended unless eight are already selected. After a change every selected symbol
      gets 100 / count. A removal keeps the other keys of the weight map (minus the removed
      symbol); an addition starts from an empty map. */
  function Toggle(st: Selection, symbol: string): (r: Selection)
    ensures !Changes(st, symbol) ==> r == st
    ensures Changes(st, symbol) && symbol in st.symbols ==>
      && r.symbols == Remove(st.symbols, symbol)
      && symbol !in r.weights
      && r.weights.Keys == (st.weights.Keys - {symbol}) + (set s | s in r.symbols)
      && (forall k | k in st.weights && k != symbol && k !in r.symbols :: k in r.weights && r.weights[k] == st.weights[k])
    ensures Changes(st, symbol) && symbol !in st.symbols ==>
      && r.symbols == st.symbols + [symbol]
      && r.weights.Keys == set s | s in r.symbols
    ensures Changes(st, symbol) ==>
      forall s | s in r.symbols :: s in r.weights && r.weights[s] == 100.0 / |r.symbols| as real
  {
    if !Changes(st, symbol) then st
    else if symbol in st.symbols then
      var symbols := Remove(st.symbols, symbol);
      // With repeated entries the removal could empty the list; no symbol then takes a share.
      var share := if |symbols| == 0 then 0.0 else 100.0 / |symbols| as real;
      Selection(symbols, Spread(st.weights - {symbol}, symbols, share))
    else
      var symbols := st.symbols + [symbol];
      Selection(symbols, Spread(map[], symbols, 100.0 / |symbols| as real))
  }

  /** The slider: set one symbol's weight, leave everything else alone. */
  function UpdateWeight(st: Selection, symbol: string, value: real): (r: Selection)
    ensures r.symbols == st.symbols
    ensures r.weights.Keys == st.weights.Keys + {symbol}
    ensures WeightOf(r.weights, symbol) == value
    ensures forall k | k != symbol :: WeightOf(r.weights, k) == WeightOf(st.weights, k)
  {
    Selection(st.symbols, st.weights[symbol := value])
  }

  /** The selected symbols' weights, in selection order, missing ones as 0. */
  function SelectedWeights(st: Selection): (ws: seq<real>)
    ensures |ws| == |st.symbols|
  {
    seq(|st.symbols|, i requires 0 <= i < |st.symbols| => WeightOf(st.weights, st.symbols[i]))
  }

  /** The total shown under the sliders: the selected symbols' weights added up, a missing
      weight counting 0. */
  function ActualTotal(st: Selection): real
  {
    Sum(SelectedWeights(st))
  }

  /** A left fold adding the weights to an accumulator one by one, first to last: the
      `reduce` the display runs, starting from 0. */
  function RunningTotal(ws: seq<real>, acc: real): real
  {
    if |ws| == 0 then acc else RunningTotal(ws[1..], acc + ws[0])
  }

  /** Folding from any accumulator adds the sum of the weights to it. */
  lemma {:induction false} RunningTotalIsSum(ws: seq<real>, acc: real)
    ensures RunningTotal(ws, acc) == acc + Sum(ws)
  {
    if |ws| > 0 {
      RunningTotalIsSum(ws[1..], acc + ws[0]);
    }
  }

  /** The displayed total is what the display's left fold over the selected symbols'
      weights gives, starting from 0. */
  lemma ActualTotalIsRunningSum(st: Selection)
    ensures ActualTotal(st) == RunningTotal(SelectedWeights(st), 0.0)
  {
    RunningTotalIsSum(SelectedWeights(st), 0.0);
  }

  /** Keys of the weight map that are not selected never affect the total. */
  lemma ActualTotalOnlySelected(a: Selection, b: Selection)
    requires a.symbols == b.symbols
    requires forall s | s in a.symbols :: WeightOf(a.weights, s) == WeightOf(b.weights, s)
    ensures ActualTotal(a) == ActualTotal(b)
  {
    assert SelectedWeights(a) == SelectedWeights(b);
  }

  /** Submitting: one asset per selected symbol, in selection order, weight / 100. */
  function Submit(st: Selection): (assets: seq<Asset>)
    ensures |assets| == |st.symbols|
    ensures forall i | 0 <= i < |assets| ::
      assets[i].symbol == st.symbols[i] && assets[i].weight * 100.0 == WeightOf(st.weights, st.symbols[i])
  {
    seq(|st.symbols|, i requires 0 <= i < |st.symbols| =>
      Asset(st.symbols[i], WeightOf(st.weights, st.symbols[i]) / 100.0))
  }

  function AssetWeights(assets: seq<Asset>): (ws: seq<real>)
    ensures |ws| == |assets|
  {
    seq(|assets|, i requires 0 <= i < |assets| => assets[i].weight)
  }

  /** Removing x from a list without duplicates deletes exactly its one position. */
  lemma {:induction false} RemoveAt(xs: seq<string>, i: nat)
    requires i < |xs| && NoDuplicates(xs)
    ensures Remove(xs, xs[i]) == xs[..i] + xs[i + 1..]
  {
    if i == 0 {
      RemoveAbsent(xs[1..], xs[0]);
    } else {
      assert xs[1..][i - 1] == xs[i];
      NoDuplicatesTail(xs);
      RemoveAt(xs[1..], i - 1);
      assert xs[0] != xs[i];
      assert Remove(xs, xs[i]) == [xs[0]] + Remove(xs[1..], xs[i]);
      assert xs[1..][..i - 1] == xs[1..i];
      assert xs[1..][i..] == xs[i + 1..];
      assert [xs[0]] + xs[1..i] == xs[..i];
    }
  }

  lemma NoDuplicatesTail(xs: seq<string>)
    requires |xs| > 0 && NoDuplicates(xs)
    ensures NoDuplicates(xs[1..])
  {
    forall i, j | 0 <= i < j < |xs| - 1
      ensures xs[1..][i] != xs[1..][j]
    {
      assert xs[1..][i] == xs[i + 1] && xs[1..][j] == xs[j + 1];
    }
  }

  /** Removing an absent symbol changes nothing. */
  lemma {:induction false} RemoveAbsent(xs: seq<string>, x: string)
    requires x !in xs
    ensures Remove(xs, x) == xs
  {
    if |xs| > 0 {
      assert xs[1..] + [] == xs[1..];
      RemoveAbsent(xs[1..], x);
      assert [xs[0]] + xs[1..] == xs;
    }
  }

  lemma {:induction false} RemoveNoDuplicates(xs: seq<string>, x: string)
    requires NoDuplicates(xs)
    ensures NoDuplicates(Remove(xs, x))
  {
    if |xs| > 0 {
      RemoveNoDuplicates(xs[1..], x);
      if xs[0] != x {
        var rest := Remove(xs[1..], x);
        assert xs[0] !in xs[1..];
        assert xs[0] !in rest;
        var r := [xs[0]] + rest;
        forall i, j | 0 <= i < j < |r|
          ensures r[i] != r[j]
        {
          if i == 0 {
            assert r[j] == rest[j - 1];
          } else {
            assert r[i] == rest[i - 1] && r[j] == rest[j - 1];
          }
        }
      }
    }
  }

  /** Toggling from a valid state gives a valid state: the bounds hold and no symbol appears
      twice. */
  lemma ToggleValid(st: Selection, symbol: string)
    requires Valid(st)
    ensures Valid(Toggle(st, symbol))
  {
    var r := Toggle(st, symbol);
    if symbol in st.symbols && |st.symbols| > MinAssets {
      var i :| 0 <= i < |st.symbols| && st.symbols[i] == symbol;
      RemoveAt(st.symbols, i);
      RemoveNoDuplicates(st.symbols, symbol);
    }
  }

  /** A toggle that removes a symbol shortens the selection by one and keeps the order of the
      rest. */
  lemma ToggleRemoves(st: Selection, i: nat)
    requires Valid(st) && i < |st.symbols| && |st.symbols| > MinAssets
    ensures Toggle(st, st.symbols[i]).symbols == st.symbols[..i] + st.symbols[i + 1..]
  {
    RemoveAt(st.symbols, i);
  }

  /** Toggling a symbol in and then out again restores the selection. */
  lemma ToggleTwice(st: Selection, symbol: string)
    requires Valid(st) && symbol !in st.symbols && |st.symbols| < MaxAssets
    ensures Toggle(Toggle(st, symbol), symbol).symbols == st.symbols
  {
    var r := Toggle(st, symbol);
    RemoveAt(r.symbols, |st.symbols|);
    assert r.symbols[..|st.symbols|] == st.symbols;
  }

  /** After a toggle that changes the selection the displayed total is exactly 100. */
  lemma ToggleTotal(st: Selection, symbol: string)
    requires Valid(st) && Changes(st, symbol)
    ensures ActualTotal(Toggle(st, symbol)) == 100.0
  {
    ToggleValid(st, symbol);
    var r := Toggle(st, symbol);
    var n := |r.symbols|;
    var share := 100.0 / n as real;
    var ws := SelectedWeights(r);
    forall i | 0 <= i < n
      ensures ws[i] == Const(n, share)[i]
    {
      assert r.symbols[i] in r.symbols;
    }
    assert ws == Const(n, share);
    SumOfShares(n);
  }

  /** n equal shares of 100 / n add up to 100. */
  lemma SumOfShares(n: nat)
    requires n > 0
    ensures Sum(Const(n, 100.0 / n as real)) == 100.0
  {
    SumConst(n, 100.0 / n as real);
    EqualShares(n as real, 100.0 / n as real);
  }

  lemma EqualShares(n: real, share: real)
    requires n > 0.0 && share == 100.0 / n
    ensures n * share == 100.0
  {
  }

  /** Moving a selected symbol's slider changes the total by the difference, when the symbol
      appears once; moving any other key leaves the total alone. */
  lemma UpdateWeightTotal(st: Selection, symbol: string, value: real)
    requires NoDuplicates(st.symbols)
    ensures symbol in st.symbols ==>
      ActualTotal(UpdateWeight(st, symbol, value)) == ActualTotal(st) - WeightOf(st.weights, symbol) + value
    ensures symbol !in st.symbols ==>
      ActualTotal(UpdateWeight(st, symbol, value)) == ActualTotal(st)
  {
    var r := UpdateWeight(st, symbol, value);
    var a, b := SelectedWeights(st), SelectedWeights(r);
    if symbol in st.symbols {
      var i :| 0 <= i < |st.symbols| && st.symbols[i] == symbol;
      forall j | 0 <= j < |a| && j != i
        ensures a[j] == b[j]
      {
      }
      SumChangeOne(a, b, i);
    } else {
      assert a == b;
    }
  }

  /** Changing one entry changes the sum by the difference. */
  lemma {:induction false} SumChangeOne(a: seq<real>, b: seq<real>, i: nat)
    requires |a| == |b| && i < |a|
    requires forall j | 0 <= j < |a| && j != i :: a[j] == b[j]
    ensures Sum(b) == Sum(a) - a[i] + b[i]
  {
    if i == 0 {
      assert a[1..] == b[1..];
    } else {
      SumChangeOne(a[1..], b[1..], i - 1);
    }
  }

  /** The submitted weights total the displayed total divided by 100. */
  lemma SubmitTotal(st: Selection)
    ensures Sum(AssetWeights(Submit(st))) * 100.0 == ActualTotal(st)
  {
    var ws := AssetWeights(Submit(st));
    var a := SelectedWeights(st);
    forall i | 0 <= i < |a|
      ensures ws[i] == Scale(1.0 / 100.0, a)[i]
    {
    }
    assert ws == Scale(1.0 / 100.0, a);
    SumScale(1.0 / 100.0, a);
  }
}
