/** The TTL analysis: prices, the two caching strategies, and the statistics of a bucket. */
module TtlCosts {
  import opened Messages
  import opened TtlAnalysis

  // ----- Prices, in dollars per million tokens -----

  datatype Price = Price(write5: real, write60: real, read: real)

  const SONNET := Price(3.75, 6.00, 0.30)
  const OPUS_6 := Price(6.25, 10.00, 0.50)
  const HAIKU := Price(1.25, 2.00, 0.10)
  const OPUS_7 := Price(18.75, 30.00, 1.50)

  /** The priced models in table order. */
  const PRICING: seq<(string, Price)> :=
    [("claude-sonnet-4-6", SONNET), ("claude-opus-4-6", OPUS_6), ("claude-haiku-4-5", HAIKU),
     ("claude-opus-4-7", OPUS_7)]

  /** The part before the first bracket. */
  function BaseName(model: string): string {
    if model == "" || model[0] == '[' then "" else [model[0]] + BaseName(model[1..])
  }

  /** The first row whose name matches, or past the end. */
  function FirstRow(table: seq<(string, Price)>, matches: string -> bool): (k: nat)
    ensures k <= |table| && (k < |table| ==> matches(table[k].0))
    ensures forall j :: 0 <= j < k ==> !matches(table[j].0)
  {
    if table == [] || matches(table[0].0) then 0
    else
      var rest := FirstRow(table[1..], matches);
      assert forall j :: 0 < j < |table| ==> table[1..][j - 1] == table[j];
      rest + 1
  }

  /** `price_for`: the model's own row, else the first row whose name its base name contains, else Sonnet's. */
  function PriceFor(model: string): Price {
    if model == "" then SONNET
    else
      var exact := FirstRow(PRICING, (name: string) => name == model);
      if exact < |PRICING| then PRICING[exact].1
      else
        var similar := FirstRow(PRICING, (name: string) => Contains(BaseName(model), name));
        if similar < |PRICING| then PRICING[similar].1 else SONNET
  }

  /** A write that lives an hour costs 1.6 times one that lives five minutes, a read 0.08 times. */
  predicate Proportional(price: Price) {
    price.write5 > 0.0 && price.write60 == 1.6 * price.write5 && price.read == 0.08 * price.write5
  }

  /** Every model is charged by a row of the table, and all rows have the same proportions. */
  lemma PricesAreProportional(model: string)
    ensures exists k :: 0 <= k < |PRICING| && PriceFor(model) == PRICING[k].1
    ensures Proportional(PriceFor(model))
  {
    assert Proportional(SONNET) && Proportional(OPUS_6) && Proportional(HAIKU) && Proportional(OPUS_7);
    assert PRICING[0].1 == SONNET && PRICING[1].1 == OPUS_6 && PRICING[2].1 == HAIKU && PRICING[3].1 == OPUS_7;
  }

  // ----- Strategies -----

  function Cost(tokens: int, perMillion: real): real {
    tokens as real * perMillion / 1000000.0
  }

  /** All writes live five minutes. */
  function StrategyA(tokens: Aggregate, price: Price): real {
    Cost(tokens.inWindow, price.write5) + Cost(tokens.avoidable, price.write5) + Cost(tokens.unavoidable, price.write5)
  }

  /** All writes live an hour, and what was rewritten within the hour is read instead. */
  function StrategyB(tokens: Aggregate, price: Price): real {
    Cost(tokens.inWindow, price.write60) + Cost(tokens.avoidable, price.read) + Cost(tokens.unavoidable, price.write60)
  }

  /** What strategy B costs on top of strategy A, in proportion to the price of a write. */
  lemma ExtraCost(tokens: Aggregate, price: Price)
    requires Proportional(price)
    ensures StrategyB(tokens, price) - StrategyA(tokens, price)
         == price.write5 * (15 * (tokens.inWindow + tokens.unavoidable) - 23 * tokens.avoidable) as real / 25000000.0
  {
    var rest, avoidable, w := tokens.inWindow as real + tokens.unavoidable as real, tokens.avoidable as real,
        price.write5;
    assert (15 * (tokens.inWindow + tokens.unavoidable) - 23 * tokens.avoidable) as real
        == 15.0 * rest - 23.0 * avoidable;
    assert StrategyA(tokens, price) == (rest + avoidable) * w / 1000000.0;
    assert StrategyB(tokens, price) == (1.6 * rest + 0.08 * avoidable) * w / 1000000.0;
  }

  lemma ScaledSign(w: real, n: int)
    requires w > 0.0
    ensures w * n as real / 25000000.0 < 0.0 <==> n < 0
    ensures w * n as real / 25000000.0 == 0.0 <==> n == 0
  {
    if n > 0 {
      assert w * n as real > 0.0;
    } else if n < 0 {
      assert w * n as real < 0.0;
    }
  }

  /** For every model the one-hour strategy is cheaper exactly when 23 times the avoidable tokens
      exceed 15 times the others, and costs the same exactly when they are equal. */
  lemma CheaperExactlyWhen(tokens: Aggregate, model: string)
    ensures StrategyB(tokens, PriceFor(model)) < StrategyA(tokens, PriceFor(model))
       <==> 23 * tokens.avoidable > 15 * (tokens.inWindow + tokens.unavoidable)
    ensures StrategyB(tokens, PriceFor(model)) == StrategyA(tokens, PriceFor(model))
       <==> 23 * tokens.avoidable == 15 * (tokens.inWindow + tokens.unavoidable)
  {
    PricesAreProportional(model);
    ExtraCost(tokens, PriceFor(model));
    ScaledSign(PriceFor(model).write5, 15 * (tokens.inWindow + tokens.unavoidable) - 23 * tokens.avoidable);
  }

  /** So a token mix has the same verdict whichever model it is priced as. */
  lemma VerdictIgnoresModel(tokens: Aggregate, model: string, other: string)
    ensures StrategyB(tokens, PriceFor(model)) < StrategyA(tokens, PriceFor(model))
       <==> StrategyB(tokens, PriceFor(other)) < StrategyA(tokens, PriceFor(other))
  {
    CheaperExactlyWhen(tokens, model);
    CheaperExactlyWhen(tokens, other);
  }

  // ----- All models together -----

  /** A row of the comparison. */
  datatype Row = Row(model: string, costA: real, costB: real)

  function RowFor(all: Aggregates, model: string): Row {
    var tokens, price := AggregateOf(all, model), PriceFor(model);
    Row(model, StrategyA(tokens, price), StrategyB(tokens, price))
  }

  function ModelsOf(rows: seq<Row>): (models: seq<string>)
    ensures |models| == |rows|
    ensures forall i {:trigger models[i]} :: 0 <= i < |rows| ==> models[i] == rows[i].model
  {
    seq(|rows|, i requires 0 <= i < |rows| => rows[i].model)
  }

  /** Every row shows its model's own costs. */
  ghost predicate Priced(rows: seq<Row>, all: Aggregates) {
    forall i :: 0 <= i < |rows| ==> rows[i] == RowFor(all, rows[i].model)
  }

  /** Every model has one row, with its own costs. */
  ghost predicate RowsFor(rows: seq<Row>, all: Aggregates, models: set<string>) {
    Priced(rows, all) && multiset(ModelsOf(rows)) == multiset(models)
  }

  function TotalA(rows: seq<Row>): real {
    if rows == [] then 0.0 else TotalA(rows[..|rows| - 1]) + rows[|rows| - 1].costA
  }

  function TotalB(rows: seq<Row>): real {
    if rows == [] then 0.0 else TotalB(rows[..|rows| - 1]) + rows[|rows| - 1].costB
  }

  /** 23 times the avoidable tokens less 15 times the others, weighted by the price of a write. */
  function Weighed(all: Aggregates, model: string): real {
    Worth(AggregateOf(all, model), PriceFor(model))
  }

  function Worth(tokens: Aggregate, price: Price): real {
    price.write5 * (23 * tokens.avoidable - 15 * (tokens.inWindow + tokens.unavoidable)) as real
  }

  function Balance(rows: seq<Row>, all: Aggregates): real {
    if rows == [] then 0.0
    else
      Balance(rows[..|rows| - 1], all) + Weighed(all, rows[|rows| - 1].model)
  }

  lemma Saving(tokens: Aggregate, price: Price)
    requires Proportional(price)
    ensures StrategyA(tokens, price) - StrategyB(tokens, price) == Worth(tokens, price) / 25000000.0
  {
    ExtraCost(tokens, price);
    Opposite(price.write5, 23 * tokens.avoidable - 15 * (tokens.inWindow + tokens.unavoidable),
             15 * (tokens.inWindow + tokens.unavoidable) - 23 * tokens.avoidable);
  }

  lemma Opposite(w: real, n: int, m: int)
    requires n + m == 0
    ensures w * n as real / 25000000.0 == -(w * m as real / 25000000.0)
  {
    assert n as real == -(m as real);
    assert w * n as real == -(w * m as real);
  }

  lemma RowSaving(all: Aggregates, model: string)
    ensures RowFor(all, model).costA - RowFor(all, model).costB == Weighed(all, model) / 25000000.0
  {
    PricesAreProportional(model);
    Saving(AggregateOf(all, model), PriceFor(model));
  }

  lemma SavingAdds(a: real, b: real, balance: real, costA: real, costB: real, share: real)
    requires a - b == balance / 25000000.0 && costA - costB == share / 25000000.0
    ensures a + costA - (b + costB) == (balance + share) / 25000000.0
  {
  }

  lemma {:induction false} TotalSaving(rows: seq<Row>, all: Aggregates)
    requires Priced(rows, all)
    ensures TotalA(rows) - TotalB(rows) == Balance(rows, all) / 25000000.0
  {
    if rows != [] {
      TotalSaving(rows[..|rows| - 1], all);
      var init, last := rows[..|rows| - 1], rows[|rows| - 1];
      RowSaving(all, last.model);
      SavingAdds(TotalA(init), TotalB(init), Balance(init, all), last.costA, last.costB, Weighed(all, last.model));
    }
  }

  /** Over several models one-hour caching is cheaper exactly when the avoidable tokens outweigh the
      others, each model's tokens weighted by the price of its writes. */
  lemma TotalCheaperExactlyWhen(rows: seq<Row>, all: Aggregates)
    requires Priced(rows, all)
    ensures TotalB(rows) < TotalA(rows) <==> Balance(rows, all) > 0.0
    ensures TotalB(rows) == TotalA(rows) <==> Balance(rows, all) == 0.0
  {
    TotalSaving(rows, all);
  }

  lemma RowAdded(rows: seq<Row>, all: Aggregates, models: set<string>, model: string)
    requires RowsFor(rows, all, models) && model !in models
    ensures RowsFor(rows + [RowFor(all, model)], all, models + {model})
  {
    var rows' := rows + [RowFor(all, model)];
    assert ModelsOf(rows') == ModelsOf(rows) + [model];
    assert multiset(models + {model}) == multiset(models) + multiset{model};
  }

  lemma TotalsAdded(rows: seq<Row>, row: Row)
    ensures TotalA(rows + [row]) == TotalA(rows) + row.costA && TotalB(rows + [row]) == TotalB(rows) + row.costB
  {
    assert (rows + [row])[..|rows|] == rows;
  }

  /** One more model priced. */
  lemma PricedNext(rows: seq<Row>, all: Aggregates, rest: set<string>, model: string)
    requires rest <= all.Keys && model in rest && RowsFor(rows, all, all.Keys - rest)
    ensures RowsFor(rows + [RowFor(all, model)], all, all.Keys - (rest - {model}))
  {
    RowAdded(rows, all, all.Keys - rest, model);
    assert all.Keys - (rest - {model}) == all.Keys - rest + {model};
  }

  /** Prices one more model. */
  method PriceModel(rows: seq<Row>, all: Aggregates, ghost rest: set<string>, model: string) returns (row: Row)
    requires rest <= all.Keys && model in rest && RowsFor(rows, all, all.Keys - rest)
    ensures RowsFor(rows + [row], all, all.Keys - (rest - {model}))
    ensures TotalA(rows + [row]) == TotalA(rows) + row.costA && TotalB(rows + [row]) == TotalB(rows) + row.costB
  {
    var price := PriceFor(model);
    row := Row(model, StrategyA(all[model], price), StrategyB(all[model], price));
    PricedNext(rows, all, rest, model);
    TotalsAdded(rows, row);
  }

  /** Prices every model, whatever the order of the dictionary's items. */
  method PriceModels(all: Aggregates) returns (rows: seq<Row>, costA: real, costB: real)
    ensures RowsFor(rows, all, all.Keys)
    ensures costA == TotalA(rows) && costB == TotalB(rows)
  {
    rows, costA, costB := [], 0.0, 0.0;
    var rest := all.Keys;
    while rest != {}
      invariant rest <= all.Keys && RowsFor(rows, all, all.Keys - rest)
      invariant costA == TotalA(rows) && costB == TotalB(rows)
      decreases |rest|
    {
      var model :| model in rest;
      var row := PriceModel(rows, all, rest, model);
      costA, costB, rows := costA + row.costA, costB + row.costB, rows + [row];
      rest := rest - {model};
    }
    assert all.Keys - rest == all.Keys;
  }

  /** From files to the verdict: one-hour caching is cheaper exactly when, over all sessions, the
      tokens written after idle gaps of five to sixty minutes outweigh the others. */
  method Compare(files: seq<File>) returns (all: Aggregates, rows: seq<Row>, costA: real, costB: real)
    ensures forall model :: AggregateOf(all, model) == TokensOf(Sessions(files, |files|), model)
    ensures RowsFor(rows, all, all.Keys)
    ensures costA == TotalA(rows) && costB == TotalB(rows)
    ensures costB < costA <==> Balance(rows, all) > 0.0
  {
    var sessions;
    all, sessions := Report(files);
    rows, costA, costB := PriceModels(all);
    TotalCheaperExactlyWhen(rows, all);
  }

  // ----- Statistics of a bucket -----

  datatype Spread = Spread(min: int, median: int, max: int)

  datatype Quartiles = Quartiles(p25: int, p75: int, p95: int)

  datatype Stats = Stats(count: nat, spread: Spread, quartiles: Quartiles, mean: int, total: int)

  function Sum(values: seq<int>): int {
    if values == [] then 0 else Sum(values[..|values| - 1]) + values[|values| - 1]
  }

  ghost predicate Ascending(values: seq<int>) {
    forall i, j :: 0 <= i <= j < |values| ==> values[i] <= values[j]
  }

  lemma {:induction false} SumBounds(values: seq<int>, low: int, high: int)
    requires forall i :: 0 <= i < |values| ==> low <= values[i] <= high
    ensures |values| * low <= Sum(values) <= |values| * high
  {
    if values != [] {
      SumBounds(values[..|values| - 1], low, high);
      assert |values| * low == (|values| - 1) * low + low && |values| * high == (|values| - 1) * high + high;
    }
  }

  lemma MultiplesInOrder(n: int, a: int, b: int)
    requires n > 0 && n * a < n * b
    ensures a < b
  {
  }

  lemma MeanBounds(total: int, n: nat, low: int, high: int)
    requires n > 0 && n * low <= total <= n * high
    ensures low <= total / n <= high
  {
    var mean := total / n;
    assert total == n * mean + total % n;
    assert n * (mean + 1) == n * mean + n;
    assert n * (high + 1) == n * high + n;
    MultiplesInOrder(n, low, mean + 1);
    MultiplesInOrder(n, mean, high + 1);
  }

  function InsertedValue(sorted: seq<int>, value: int): seq<int> {
    if sorted == [] || sorted[|sorted| - 1] <= value then sorted + [value]
    else InsertedValue(sorted[..|sorted| - 1], value) + [sorted[|sorted| - 1]]
  }

  /** `sorted(lst)` */
  function SortedValues(values: seq<int>): seq<int> {
    if values == [] then [] else InsertedValue(SortedValues(values[..|values| - 1]), values[|values| - 1])
  }

  lemma {:induction false} InsertedValueKeeps(sorted: seq<int>, value: int)
    ensures multiset(InsertedValue(sorted, value)) == multiset(sorted) + multiset{value}
  {
    if sorted != [] && sorted[|sorted| - 1] > value {
      var init, last := sorted[..|sorted| - 1], sorted[|sorted| - 1];
      InsertedValueKeeps(init, value);
      assert sorted == init + [last];
    }
  }

  lemma {:induction false} InsertedValueSum(sorted: seq<int>, value: int)
    ensures Sum(InsertedValue(sorted, value)) == Sum(sorted) + value
  {
    if sorted != [] && sorted[|sorted| - 1] > value {
      InsertedValueSum(sorted[..|sorted| - 1], value);
    } else {
      assert (sorted + [value])[..|sorted|] == sorted;
    }
  }

  lemma {:induction false} InsertedValueBelow(sorted: seq<int>, value: int, bound: int)
    requires value <= bound && forall i :: 0 <= i < |sorted| ==> sorted[i] <= bound
    ensures forall i :: 0 <= i < |InsertedValue(sorted, value)| ==> InsertedValue(sorted, value)[i] <= bound
  {
    if sorted != [] && sorted[|sorted| - 1] > value {
      InsertedValueBelow(sorted[..|sorted| - 1], value, bound);
    }
  }

  lemma {:induction false} InsertedValueAscends(sorted: seq<int>, value: int)
    requires Ascending(sorted)
    ensures Ascending(InsertedValue(sorted, value))
  {
    if sorted != [] && sorted[|sorted| - 1] > value {
      var init, last := sorted[..|sorted| - 1], sorted[|sorted| - 1];
      InsertedValueAscends(init, value);
      InsertedValueBelow(init, value, last);
    }
  }

  lemma {:induction false} SortedValuesKeep(values: seq<int>)
    ensures multiset(SortedValues(values)) == multiset(values)
  {
    if values != [] {
      var init, last := values[..|values| - 1], values[|values| - 1];
      SortedValuesKeep(init);
      InsertedValueKeeps(SortedValues(init), last);
      assert values == init + [last];
    }
  }

  lemma {:induction false} SortedValuesSum(values: seq<int>)
    ensures Sum(SortedValues(values)) == Sum(values)
  {
    if values != [] {
      SortedValuesSum(values[..|values| - 1]);
      InsertedValueSum(SortedValues(values[..|values| - 1]), values[|values| - 1]);
    }
  }

  lemma {:induction false} SortedValuesAscend(values: seq<int>)
    ensures Ascending(SortedValues(values))
  {
    if values != [] {
      SortedValuesAscend(values[..|values| - 1]);
      InsertedValueAscends(SortedValues(values[..|values| - 1]), values[|values| - 1]);
    }
  }

  function StatsOfSorted(sorted: seq<int>): Stats
    requires sorted != []
  {
    var n := |sorted|;
    var at95 := if n - 1 < 19 * n / 20 then n - 1 else 19 * n / 20;
    Stats(n, Spread(sorted[0], sorted[n / 2], sorted[n - 1]),
          Quartiles(sorted[n / 4], sorted[3 * n / 4], sorted[at95]), Sum(sorted) / n, Sum(sorted))
  }

  /** `stats` */
  function StatsOf(values: seq<int>): Option<Stats> {
    var sorted := SortedValues(values);
    if sorted == [] then None else Some(StatsOfSorted(sorted))
  }

  lemma InOrder(sorted: seq<int>)
    requires sorted != [] && Ascending(sorted)
    ensures var s := StatsOfSorted(sorted);
            && s.spread.min <= s.quartiles.p25 <= s.spread.median <= s.quartiles.p75 <= s.quartiles.p95 <= s.spread.max
            && s.spread.min <= s.mean <= s.spread.max
  {
    var n := |sorted|;
    SumBounds(sorted, sorted[0], sorted[n - 1]);
    MeanBounds(Sum(sorted), n, sorted[0], sorted[n - 1]);
  }

  /** A bucket has statistics unless it is empty. The percentiles are in order, all values and the
      mean lie between the extremes, and count and total are those of the unsorted bucket. */
  lemma StatsDescribe(values: seq<int>)
    ensures StatsOf(values).Some? <==> values != []
    ensures values != [] ==>
      var s := StatsOf(values).value;
      && s.count == |values| && s.total == Sum(values)
      && s.spread.min <= s.quartiles.p25 <= s.spread.median <= s.quartiles.p75 <= s.quartiles.p95 <= s.spread.max
      && s.spread.min <= s.mean <= s.spread.max
      && forall i :: 0 <= i < |values| ==> s.spread.min <= values[i] <= s.spread.max
  {
    var sorted := SortedValues(values);
    SortedValuesKeep(values);
    SortedValuesSum(values);
    SortedValuesAscend(values);
    assert |sorted| == |multiset(sorted)| == |multiset(values)| == |values|;
    if values != [] {
      InOrder(sorted);
      forall i | 0 <= i < |values|
        ensures sorted[0] <= values[i] <= sorted[|sorted| - 1]
      {
        assert values[i] in multiset(sorted);
        var j :| 0 <= j < |sorted| && sorted[j] == values[i];
      }
    }
  }
}
