/**
 * The read-only figures the dashboard computes from the game state: the
 * per-turn sales-volume series, total stock, stock value and total assets,
 * and the top-5 selection of the most-sold chart.
 */
module Dashboard {
  import opened Wrappers
  import opened Ledger
  import opened Inventory
  import opened Turn

  // ----- Sales volume per turn -----

  /** An entry that counts towards the series: a sale revenue carrying a quantity. */
  predicate Qualifies(t: Transaction) {
    t.kind == Revenue && SALE_PREFIX <= t.description && t.quantity.Some?
  }

  /** Units that entry `t` adds to turn `k`. */
  function Contribution(t: Transaction, k: int): int {
    if Qualifies(t) && t.turn == k then t.quantity.value else 0
  }

  /** Units sold in turn `k` according to the log. */
  function QuantityOn(log: seq<Transaction>, k: int): int {
    if log == [] then 0 else QuantityOn(log[..|log| - 1], k) + Contribution(log[|log| - 1], k)
  }

  /** Turns that have at least one qualifying entry. */
  function QualifyingTurns(log: seq<Transaction>): set<int> {
    if log == [] then {}
    else QualifyingTurns(log[..|log| - 1]) + (if Qualifies(log[|log| - 1]) then {log[|log| - 1].turn} else {})
  }

  /** Units sold over the whole log. */
  function QualifyingQuantity(log: seq<Transaction>): int {
    if log == [] then 0
    else
      var t := log[|log| - 1];
      QualifyingQuantity(log[..|log| - 1]) + (if Qualifies(t) then t.quantity.value else 0)
  }

  predicate StrictlyIncreasing(s: seq<int>) {
    forall i, j :: 0 <= i < j < |s| ==> s[i] < s[j]
  }

  function Sum(s: seq<int>): int {
    if s == [] then 0 else Sum(s[..|s| - 1]) + s[|s| - 1]
  }

  /** A turn without qualifying entries has no sales. */
  lemma {:induction false} QuantityOffTurns(log: seq<Transaction>, k: int)
    requires k !in QualifyingTurns(log)
    ensures QuantityOn(log, k) == 0
  {
    if log != [] {
      QuantityOffTurns(log[..|log| - 1], k);
    }
  }

  /** Inserts a new key into a strictly increasing sequence. */
  function Insert(s: seq<int>, x: int): (r: seq<int>)
    requires StrictlyIncreasing(s) && x !in s
    ensures StrictlyIncreasing(r)
    ensures forall k :: k in r <==> k in s || k == x
    ensures |r| == |s| + 1
  {
    if s == [] then [x]
    else if x < s[0] then [x] + s
    else
      var rest := Insert(s[1..], x);
      assert forall k :: k in s[1..] ==> s[0] < k;
      assert forall j :: 0 <= j < |rest| ==> rest[j] in rest;
      [s[0]] + rest
  }

  /** No key appears twice, as with the keys of an object. */
  predicate Distinct(s: seq<int>) {
    forall i, j :: 0 <= i < j < |s| ==> s[i] != s[j]
  }

  /** `.map(Number).sort((a, b) => a - b)` over an object's keys. */
  method SortAscending(keys: seq<int>) returns (s: seq<int>)
    requires Distinct(keys)
    ensures StrictlyIncreasing(s)
    ensures forall k :: k in s <==> k in keys
  {
    s := [];
    var i := 0;
    while i < |keys|
      invariant 0 <= i <= |keys|
      invariant StrictlyIncreasing(s)
      invariant forall k :: k in s <==> k in keys[..i]
    {
      assert keys[..i + 1] == keys[..i] + [keys[i]];
      s := Insert(s, keys[i]);
      i := i + 1;
    }
    assert keys[..i] == keys;
  }

  /**
   * `getSalesQuantityPerTurnData`: one category for every turn 1..currentTurn
   * and for every turn with a qualifying entry, in ascending order, each with
   * the units sold in it. The object `salesByTurn` is a map together with its
   * list of keys.
   */
  method SalesQuantityPerTurn(currentTurn: int, log: seq<Transaction>)
    returns (categories: seq<int>, seriesData: seq<int>)
    ensures StrictlyIncreasing(categories)
    ensures forall k :: k in categories <==> 1 <= k <= currentTurn || k in QualifyingTurns(log)
    ensures |seriesData| == |categories|
    ensures forall i :: 0 <= i < |categories| ==> seriesData[i] == QuantityOn(log, categories[i])
    ensures StampedUpTo(log, currentTurn) ==>
      |categories| == (if currentTurn > 0 then currentTurn else 0) &&
      forall i :: 0 <= i < |categories| ==> categories[i] == i + 1
  {
    var salesByTurn: map<int, int> := map[];
    var turnKeys: seq<int> := [];
    var i := 1;
    while i <= currentTurn
      invariant 1 <= i && (i <= currentTurn + 1 || i == 1)
      invariant forall k :: k in salesByTurn <==> 1 <= k < i
      invariant forall k :: k in turnKeys <==> k in salesByTurn
      invariant Distinct(turnKeys)
      invariant forall k :: k in salesByTurn ==> salesByTurn[k] == 0
    {
      assert i !in turnKeys;
      salesByTurn := salesByTurn[i := 0];
      turnKeys := turnKeys + [i];
      i := i + 1;
    }
    var j := 0;
    while j < |log|
      invariant 0 <= j <= |log|
      invariant forall k :: k in salesByTurn <==> 1 <= k <= currentTurn || k in QualifyingTurns(log[..j])
      invariant forall k :: k in turnKeys <==> k in salesByTurn
      invariant Distinct(turnKeys)
      invariant forall k :: k in salesByTurn ==> salesByTurn[k] == QuantityOn(log[..j], k)
    {
      var t := log[j];
      assert log[..j + 1][..j] == log[..j];
      if Qualifies(t) {
        if t.turn !in salesByTurn {
          QuantityOffTurns(log[..j], t.turn);
          assert t.turn !in turnKeys;
          turnKeys := turnKeys + [t.turn];
        }
        var sofar := if t.turn in salesByTurn then salesByTurn[t.turn] else 0;
        salesByTurn := salesByTurn[t.turn := sofar + t.quantity.value];
      }
      j := j + 1;
    }
    assert log[..j] == log;
    categories := SortAscending(turnKeys);
    seriesData := seq(|categories|, n requires 0 <= n < |categories| => salesByTurn[categories[n]]);
    if StampedUpTo(log, currentTurn) {
      QualifyingTurnsWithin(log, currentTurn);
      CategoriesAreTurns(currentTurn, log, categories);
    }
  }

  /** Sales recorded in a log stamped with turns 1..n lie in those turns. */
  lemma {:induction false} QualifyingTurnsWithin(log: seq<Transaction>, n: int)
    requires forall i :: 0 <= i < |log| ==> 1 <= log[i].turn <= n
    ensures forall k :: k in QualifyingTurns(log) ==> 1 <= k <= n
  {
    if log != [] {
      QualifyingTurnsWithin(log[..|log| - 1], n);
    }
  }

  /**
   * When every qualifying entry lies in turns 1..currentTurn, the categories
   * are exactly 1, 2, ..., currentTurn.
   */
  lemma {:induction false} CategoriesAreTurns(currentTurn: int, log: seq<Transaction>, categories: seq<int>)
    requires StrictlyIncreasing(categories)
    requires forall k :: k in categories <==> 1 <= k <= currentTurn || k in QualifyingTurns(log)
    requires forall k :: k in QualifyingTurns(log) ==> 1 <= k <= currentTurn
    ensures |categories| == (if currentTurn > 0 then currentTurn else 0)
    ensures forall i :: 0 <= i < |categories| ==> categories[i] == i + 1
  {
    CountUp(categories, currentTurn);
  }

  /** A strictly increasing sequence holding exactly 1..n is [1, ..., n]. */
  lemma {:induction false} CountUp(s: seq<int>, n: int)
    requires StrictlyIncreasing(s)
    requires forall k :: k in s <==> 1 <= k <= n
    ensures |s| == (if n > 0 then n else 0)
    ensures forall i :: 0 <= i < |s| ==> s[i] == i + 1
  {
    if s == [] {
      assert 1 in s <==> 1 <= n;
    } else {
      var m := |s| - 1;
      assert s[m] in s;
      assert 1 <= s[m] <= n;
      assert n in s;
      assert s[m] == n by {
        var j :| 0 <= j < |s| && s[j] == n;
        assert j <= m ==> s[j] <= s[m];
      }
      var p := s[..m];
      forall k
        ensures k in p <==> 1 <= k <= n - 1
      {
        if k in p {
          var j :| 0 <= j < m && p[j] == k;
          assert s[j] == k && s[j] in s;
          assert k < n by { assert s[j] < s[m]; }
          assert 1 <= k;
        }
        if 1 <= k <= n - 1 {
          assert k in s;
          var j :| 0 <= j < |s| && s[j] == k;
          assert j != m by { assert s[m] == n; }
          assert p[j] == k;
          assert k in p;
        }
      }
      CountUp(p, n - 1);
    }
  }

  /** Sum over the keys `ks` of the units sold in each. */
  function SeriesSum(log: seq<Transaction>, ks: seq<int>): int {
    if ks == [] then 0 else SeriesSum(log, ks[..|ks| - 1]) + QuantityOn(log, ks[|ks| - 1])
  }

  /** Removing the last log entry changes the series sum by that entry's units, if its turn is a key. */
  lemma {:induction false} SeriesSumStep(log: seq<Transaction>, ks: seq<int>)
    requires log != [] && StrictlyIncreasing(ks)
    ensures
      var t := log[|log| - 1];
      SeriesSum(log, ks) ==
        SeriesSum(log[..|log| - 1], ks) + (if Qualifies(t) && t.turn in ks then t.quantity.value else 0)
  {
    if ks != [] {
      var m := |ks| - 1;
      SeriesSumStep(log, ks[..m]);
      assert ks[m] !in ks[..m];
      assert forall k :: k in ks <==> k in ks[..m] || k == ks[m];
    }
  }

  /** The sum over distinct keys covering every qualifying turn is the total of the log. */
  lemma {:induction false} SeriesSumCovers(log: seq<Transaction>, ks: seq<int>)
    requires StrictlyIncreasing(ks)
    requires forall k :: k in QualifyingTurns(log) ==> k in ks
    ensures SeriesSum(log, ks) == QualifyingQuantity(log)
  {
    if log == [] {
      ZeroSeries(ks);
    } else {
      SeriesSumStep(log, ks);
      SeriesSumCovers(log[..|log| - 1], ks);
    }
  }

  lemma {:induction false} ZeroSeries(ks: seq<int>)
    ensures SeriesSum([], ks) == 0
  {
    if ks != [] {
      ZeroSeries(ks[..|ks| - 1]);
    }
  }

  /**
   * The values of the series add up to all units sold in the log: every
   * qualifying entry is counted once, in its own turn.
   */
  lemma SeriesTotal(log: seq<Transaction>, categories: seq<int>, seriesData: seq<int>)
    requires StrictlyIncreasing(categories)
    requires forall k :: k in QualifyingTurns(log) ==> k in categories
    requires |seriesData| == |categories|
    requires forall i :: 0 <= i < |categories| ==> seriesData[i] == QuantityOn(log, categories[i])
    ensures Sum(seriesData) == QualifyingQuantity(log)
  {
    SumIsSeriesSum(log, categories, seriesData);
    SeriesSumCovers(log, categories);
  }

  lemma {:induction false} SumIsSeriesSum(log: seq<Transaction>, ks: seq<int>, values: seq<int>)
    requires |values| == |ks|
    requires forall i :: 0 <= i < |ks| ==> values[i] == QuantityOn(log, ks[i])
    ensures Sum(values) == SeriesSum(log, ks)
  {
    if ks != [] {
      SumIsSeriesSum(log, ks[..|ks| - 1], values[..|values| - 1]);
    }
  }

  /** With non-negative quantities no turn has negative sales. */
  lemma {:induction false} QuantityNonNegative(log: seq<Transaction>, k: int)
    requires forall i :: 0 <= i < |log| && log[i].quantity.Some? ==> log[i].quantity.value >= 0
    ensures QuantityOn(log, k) >= 0
  {
    if log != [] {
      QuantityNonNegative(log[..|log| - 1], k);
    }
  }

  lemma {:induction false} QuantityOnConcat(a: seq<Transaction>, b: seq<Transaction>, k: int)
    ensures QuantityOn(a + b, k) == QuantityOn(a, k) + QuantityOn(b, k)
  {
    if b == [] {
      assert a + b == a;
    } else {
      QuantityOnConcat(a, b[..|b| - 1], k);
      assert (a + b)[..|a + b| - 1] == a + b[..|b| - 1];
    }
  }

  /**
   * Only sale revenues count: the initial capital, cost-of-goods-sold
   * entries, purchases and the operating charge never do.
   */
  lemma OnlySalesCount(p: Product, units: nat, quantity: nat, turn: int)
    requires units > 0
    ensures Qualifies(SaleEntries(p, units, turn)[0])
    ensures !Qualifies(SaleEntries(p, units, turn)[1])
    ensures !Qualifies(Transaction(1, Revenue, CAPITAL_DESCRIPTION, 100000, None))
    ensures !Qualifies(Transaction(turn, Expense, PurchaseDescription(quantity, p.name), quantity * p.purchaseCost, None))
    ensures !Qualifies(OperatingEntry(turn))
  {
    DescriptionPrefixes(units, quantity, p.name);
  }

  /** The sales entries of a turn put all units sold under that turn and nothing elsewhere. */
  lemma {:induction false} SalesLogVolume(ps: seq<Product>, ds: seq<Draw>, turn: int, k: int)
    requires |ps| == |ds|
    ensures QuantityOn(SalesLog(ps, ds, turn), k) == (if k == turn then UnitsSoldTotal(ps, ds) else 0)
  {
    if ps != [] {
      var n := |ps| - 1;
      var u := UnitsSold(ps[n], ds[n]);
      var e := SaleEntries(ps[n], u, turn);
      SalesLogVolume(ps[..n], ds[..n], turn, k);
      QuantityOnConcat(SalesLog(ps[..n], ds[..n], turn), e, k);
      if u > 0 {
        OnlySalesCount(ps[n], u, 0, turn);
        assert e[..1][..0] == [] && e[..|e| - 1] == e[..1];
        assert QuantityOn(e[..1], k) == Contribution(e[0], k);
        assert QuantityOn(e, k) == (if k == turn then u else 0);
      }
    }
  }

  /**
   * After a turn the series gains, at that turn, exactly the units sold in
   * it; no other turn changes.
   */
  lemma TurnSalesVolume(log: seq<Transaction>, ps: seq<Product>, ds: seq<Draw>, turn: int, k: int)
    requires |ps| == |ds|
    ensures QuantityOn(log + TurnLog(ps, ds, turn), k) ==
      QuantityOn(log, k) + (if k == turn then UnitsSoldTotal(ps, ds) else 0)
  {
    var sales := SalesLog(ps, ds, turn);
    SalesLogVolume(ps, ds, turn, k);
    QuantityOnConcat(sales, [OperatingEntry(turn)], k);
    assert [OperatingEntry(turn)][..0] == [];
    QuantityOnConcat(log, TurnLog(ps, ds, turn), k);
  }

  // ----- Stock and assets -----

  /** `products.reduce((acc, p) => acc + p.stock, 0)`. */
  function TotalStock(ps: seq<Product>): int {
    if ps == [] then 0 else TotalStock(ps[..|ps| - 1]) + ps[|ps| - 1].stock
  }

  /** `products.reduce((acc, p) => acc + p.stock * p.purchaseCost, 0)`. */
  function StockValue(ps: seq<Product>): int {
    if ps == [] then 0 else StockValue(ps[..|ps| - 1]) + ps[|ps| - 1].stock * ps[|ps| - 1].purchaseCost
  }

  /** Cash plus the value of the stock at purchase cost. */
  function TotalAssets(cash: int, ps: seq<Product>): int {
    cash + StockValue(ps)
  }

  /** With no negative stock the totals are non-negative (stock value needs non-negative costs too). */
  lemma {:induction false} StockTotalsNonNegative(ps: seq<Product>)
    requires StocksNonNegative(ps)
    ensures TotalStock(ps) >= 0
    ensures (forall i :: 0 <= i < |ps| ==> ps[i].purchaseCost >= 0) ==> StockValue(ps) >= 0
  {
    if ps != [] {
      StockTotalsNonNegative(ps[..|ps| - 1]);
    }
  }

  /** Replacing one product changes the totals by that product's difference. */
  lemma {:induction false} UpdateOne(ps: seq<Product>, i: nat, p: Product)
    requires i < |ps|
    ensures TotalStock(ps[i := p]) == TotalStock(ps) - ps[i].stock + p.stock
    ensures StockValue(ps[i := p]) ==
      StockValue(ps) - ps[i].stock * ps[i].purchaseCost + p.stock * p.purchaseCost
  {
    var n := |ps| - 1;
    var qs := ps[i := p];
    if i == n {
      assert qs[..n] == ps[..n];
    } else {
      UpdateOne(ps[..n], i, p);
      assert qs[..n] == ps[..n][i := p];
    }
  }

  /**
   * Buying converts cash into stock at cost: total assets are unchanged and
   * the total stock grows by the quantity bought.
   */
  lemma PurchaseKeepsAssets(cash: int, ps: seq<Product>, i: nat, quantity: int)
    requires i < |ps|
    ensures
      var p := ps[i];
      var after := ps[i := p.(stock := p.stock + quantity)];
      TotalAssets(cash - quantity * p.purchaseCost, after) == TotalAssets(cash, ps) &&
      TotalStock(after) == TotalStock(ps) + quantity
  {
    var p := ps[i];
    UpdateOne(ps, i, p.(stock := p.stock + quantity));
    assert (p.stock + quantity) * p.purchaseCost == p.stock * p.purchaseCost + quantity * p.purchaseCost;
  }

  /** Repricing changes neither stock nor assets (stock is valued at cost). */
  lemma RepriceKeepsAssets(cash: int, ps: seq<Product>, i: nat, newPrice: int)
    requires i < |ps|
    ensures TotalAssets(cash, ps[i := ps[i].(price := newPrice)]) == TotalAssets(cash, ps)
    ensures TotalStock(ps[i := ps[i].(price := newPrice)]) == TotalStock(ps)
  {
    UpdateOne(ps, i, ps[i].(price := newPrice));
  }

  /** Selling removes exactly the units sold from stock and their cost from stock value. */
  lemma {:induction false} SalesReduceStock(ps: seq<Product>, ds: seq<Draw>)
    requires |ps| == |ds|
    ensures TotalStock(AfterSales(ps, ds)) == TotalStock(ps) - UnitsSoldTotal(ps, ds)
    ensures StockValue(AfterSales(ps, ds)) == StockValue(ps) - CostOfSales(ps, ds)
  {
    if ps != [] {
      var n := |ps| - 1;
      var after := AfterSales(ps, ds);
      assert after[..n] == AfterSales(ps[..n], ds[..n]);
      SalesReduceStock(ps[..n], ds[..n]);
      var u := UnitsSold(ps[n], ds[n]);
      var c := ps[n].purchaseCost;
      assert (ps[n].stock - u) * c == ps[n].stock * c - u * c;
    }
  }

  /**
   * Over a turn total assets move by the takings minus the cost of the goods
   * sold minus 50.00 — exactly the change of profit.
   */
  lemma TurnAssets(cash: int, ps: seq<Product>, ds: seq<Draw>)
    requires |ps| == |ds|
    ensures TotalAssets(cash + SalesIncome(ps, ds) - OPERATING_EXPENSE, AfterSales(ps, ds)) ==
      TotalAssets(cash, ps) + SalesIncome(ps, ds) - CostOfSales(ps, ds) - OPERATING_EXPENSE
  {
    SalesReduceStock(ps, ds);
  }

  // ----- Most-sold products -----

  const TOP_COUNT: int := 5

  datatype SalesEntry = SalesEntry(name: string, sales: int)

  /** The two parallel arrays the chart is given. */
  datatype Chart = Chart(categories: seq<string>, seriesData: seq<int>)

  predicate NonIncreasing(s: seq<SalesEntry>) {
    forall i, j :: 0 <= i < j < |s| ==> s[i].sales >= s[j].sales
  }

  /** Places `e` before the first entry that does not sell more. */
  function InsertBySales(e: SalesEntry, s: seq<SalesEntry>): seq<SalesEntry> {
    if s == [] then [e]
    else if e.sales >= s[0].sales then [e] + s
    else [s[0]] + InsertBySales(e, s[1..])
  }

  /** Inserting into an ordering by decreasing sales keeps it ordered. */
  lemma {:induction false} InsertKeepsOrder(e: SalesEntry, s: seq<SalesEntry>)
    requires NonIncreasing(s)
    ensures |InsertBySales(e, s)| == |s| + 1
    ensures InsertBySales(e, s)[0] == e || (s != [] && InsertBySales(e, s)[0] == s[0])
    ensures NonIncreasing(InsertBySales(e, s))
  {
    if s != [] && e.sales < s[0].sales {
      var rest := InsertBySales(e, s[1..]);
      InsertKeepsOrder(e, s[1..]);
      assert rest[0].sales <= s[0].sales;
      var r := [s[0]] + rest;
      forall i, j | 0 <= i < j < |r|
        ensures r[i].sales >= r[j].sales
      {
        if i == 0 && j > 1 {
          assert rest[0].sales >= rest[j - 1].sales;
        }
      }
    }
  }

  /** Inserting adds exactly the one entry. */
  lemma {:induction false} InsertAddsOne(e: SalesEntry, s: seq<SalesEntry>)
    ensures multiset(InsertBySales(e, s)) == multiset(s) + multiset{e}
  {
    if s != [] && e.sales < s[0].sales {
      InsertAddsOne(e, s[1..]);
      assert s == [s[0]] + s[1..];
    }
  }

  /** `sort((a, b) => b.sales - a.sales)`: an ordering by decreasing sales. */
  function SortBySales(s: seq<SalesEntry>): (r: seq<SalesEntry>)
    ensures NonIncreasing(r)
    ensures multiset(r) == multiset(s)
    ensures |r| == |s|
  {
    if s == [] then []
    else
      var rest := SortBySales(s[1..]);
      InsertKeepsOrder(s[0], rest);
      InsertAddsOne(s[0], rest);
      assert s == [s[0]] + s[1..];
      InsertBySales(s[0], rest)
  }

  /** The first `k` entries of an ordering by decreasing sales sell at least as much as any other. */
  lemma PrefixIsTop(sorted: seq<SalesEntry>, k: nat)
    requires NonIncreasing(sorted) && 0 < k <= |sorted|
    ensures multiset(sorted[..k]) <= multiset(sorted)
    ensures forall e :: e in multiset(sorted) - multiset(sorted[..k]) ==> e.sales <= sorted[k - 1].sales
  {
    assert sorted == sorted[..k] + sorted[k..];
    assert multiset(sorted) - multiset(sorted[..k]) == multiset(sorted[k..]);
    forall e | e in multiset(sorted[k..])
      ensures e.sales <= sorted[k - 1].sales
    {
      var j :| 0 <= j < |sorted[k..]| && sorted[k..][j] == e;
      assert sorted[k + j] == e;
    }
  }

  function Entries(products: seq<Product>, sales: seq<int>): seq<SalesEntry>
    requires |sales| == |products|
  {
    seq(|products|, i requires 0 <= i < |products| => SalesEntry(products[i].name, sales[i]))
  }

  /** `sort(...).slice(0, 5)`. */
  function TopSelling(es: seq<SalesEntry>): seq<SalesEntry> {
    SortBySales(es)[..Min(TOP_COUNT, |es|)]
  }

  /**
   * The selection holds min(5, n) of the entries, ordered by decreasing sales,
   * and every entry left out sells no more than the last one selected.
   */
  lemma TopSellingSpec(es: seq<SalesEntry>)
    ensures |TopSelling(es)| == Min(TOP_COUNT, |es|)
    ensures NonIncreasing(TopSelling(es))
    ensures multiset(TopSelling(es)) <= multiset(es)
    ensures |es| > 0 ==> forall e :: e in multiset(es) - multiset(TopSelling(es)) ==>
      e.sales <= TopSelling(es)[|TopSelling(es)| - 1].sales
  {
    if |es| > 0 {
      PrefixIsTop(SortBySales(es), Min(TOP_COUNT, |es|));
    }
  }

  /** The chart's categories and values read back as name/sales pairs. */
  function Pairs(chart: Chart): seq<SalesEntry> {
    var n := if |chart.categories| <= |chart.seriesData| then |chart.categories| else |chart.seriesData|;
    seq(n, i requires 0 <= i < n => SalesEntry(chart.categories[i], chart.seriesData[i]))
  }

  /** Splits name/sales pairs into the chart's two parallel arrays. */
  function ChartOf(entries: seq<SalesEntry>): (chart: Chart)
    ensures |chart.categories| == |chart.seriesData| == |entries|
    ensures forall i :: 0 <= i < |entries| ==> chart.seriesData[i] == entries[i].sales
    ensures Pairs(chart) == entries
  {
    var chart := Chart(seq(|entries|, i requires 0 <= i < |entries| => entries[i].name),
                       seq(|entries|, i requires 0 <= i < |entries| => entries[i].sales));
    assert Pairs(chart) == entries;
    chart
  }

  /**
   * `generateMostSoldProductsData` over given sales numbers: nothing for an
   * empty catalog; otherwise the (at most) five best sellers, by decreasing
   * sales, with names and values in parallel arrays of equal length.
   */
  function MostSoldChart(products: seq<Product>, sales: seq<int>): (chart: Chart)
    requires |sales| == |products|
    ensures |products| == 0 ==> chart == Chart([], [])
    ensures |chart.categories| == |chart.seriesData| == Min(TOP_COUNT, |products|)
    ensures forall i, j :: 0 <= i < j < |chart.seriesData| ==> chart.seriesData[i] >= chart.seriesData[j]
    ensures multiset(Pairs(chart)) <= multiset(Entries(products, sales))
    ensures |products| > 0 ==> forall e :: e in multiset(Entries(products, sales)) - multiset(Pairs(chart)) ==>
      e.sales <= chart.seriesData[|chart.seriesData| - 1]
  {
    if |products| == 0 then Chart([], [])
    else
      var es := Entries(products, sales);
      TopSellingSpec(es);
      ChartOf(TopSelling(es))
  }
}
