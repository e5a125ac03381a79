/**
 * The rules of one turn of the simulation, as values: which products sell,
 * how many units, the catalog afterwards, the entries appended to the log and
 * the money involved. The game state's AdvanceTurn is proved against these.
 *
 * The two `Math.random()` draws made per product are given as a Draw: `chance`
 * decides whether a sale happens, `unit` picks the number of units.
 */
module Turn {
  import opened Wrappers
  import opened Ledger
  import opened Inventory

  /** The fixed daily operating charge, 50.00. */
  const OPERATING_EXPENSE: int := 5000
  /** A sale happens only when the chance draw exceeds this. */
  const SALE_THRESHOLD: real := 0.3
  /** The unit draw picks 1 to this many units. */
  const MAX_UNITS: int := 5

  datatype Draw = Draw(chance: real, unit: real)

  /** What `Math.random()` guarantees of both draws. */
  predicate InUnitInterval(d: Draw) {
    0.0 <= d.chance < 1.0 && 0.0 <= d.unit < 1.0
  }

  /** `Math.floor(Math.random() * 5) + 1`. */
  function UnitDraw(d: Draw): int {
    (d.unit * 5.0).Floor + 1
  }

  function Min(a: int, b: int): int {
    if a <= b then a else b
  }

  /** Units of product `p` sold this turn (0 when no sale happens). */
  function UnitsSold(p: Product, d: Draw): int {
    if p.stock > 0 && d.chance > SALE_THRESHOLD then
      var maxSell := Min(p.stock, UnitDraw(d));
      if maxSell > 0 then maxSell else 0
    else 0
  }

  /** A unit draw from [0, 1) picks between 1 and 5 units. */
  lemma UnitDrawRange(d: Draw)
    requires 0.0 <= d.unit < 1.0
    ensures 1 <= UnitDraw(d) <= MAX_UNITS
  {
    var x := d.unit * 5.0;
    assert 0.0 <= x < 5.0;
    assert x.Floor as real <= x;
    assert (x.Floor + 1) as real > x;
  }

  /**
   * A product without stock, or whose chance draw is at most 0.3, sells nothing;
   * any other sells min(stock, unit draw) units, between 1 and min(stock, 5).
   */
  lemma UnitsSoldRange(p: Product, d: Draw)
    requires InUnitInterval(d)
    ensures UnitsSold(p, d) == 0 <==> p.stock <= 0 || d.chance <= SALE_THRESHOLD
    ensures UnitsSold(p, d) > 0 ==>
      UnitsSold(p, d) == Min(p.stock, UnitDraw(d)) && 1 <= UnitsSold(p, d) <= Min(p.stock, MAX_UNITS)
  {
    UnitDrawRange(d);
  }

  /** A product after the turn's sale: only its stock changes. */
  function AfterSale(p: Product, d: Draw): Product {
    p.(stock := p.stock - UnitsSold(p, d))
  }

  /** The catalog after every product has been offered for sale. */
  function AfterSales(ps: seq<Product>, ds: seq<Draw>): seq<Product>
    requires |ps| == |ds|
  {
    seq(|ps|, i requires 0 <= i < |ps| => AfterSale(ps[i], ds[i]))
  }

  /**
   * Only stock changes, it never becomes negative, it drops by exactly the units
   * sold, and a product that does not sell keeps its stock.
   */
  lemma AfterSalesEffect(ps: seq<Product>, ds: seq<Draw>, i: nat)
    requires |ps| == |ds| && i < |ps|
    ensures |AfterSales(ps, ds)| == |ps|
    ensures AfterSales(ps, ds)[i] == ps[i].(stock := AfterSales(ps, ds)[i].stock)
    ensures AfterSales(ps, ds)[i].stock == ps[i].stock - UnitsSold(ps[i], ds[i])
    ensures ps[i].stock >= 0 ==> AfterSales(ps, ds)[i].stock >= 0
    ensures ps[i].stock <= 0 || ds[i].chance <= SALE_THRESHOLD ==> AfterSales(ps, ds)[i] == ps[i]
  {
  }

  /** Selling never drives a stock below zero. */
  lemma SalesKeepStocksNonNegative(ps: seq<Product>, ds: seq<Draw>)
    requires |ps| == |ds|
    requires StocksNonNegative(ps)
    ensures StocksNonNegative(AfterSales(ps, ds))
  {
    forall k | 0 <= k < |ps|
      ensures AfterSales(ps, ds)[k].stock >= 0
    {
      AfterSalesEffect(ps, ds, k);
    }
  }

  /** The revenue entry and the cost-of-goods-sold entry of one sale. */
  function SaleEntries(p: Product, units: int, turn: int): seq<Transaction> {
    if units > 0 then
      [ Transaction(turn, Revenue, SaleDescription(units, p.name), units * p.price, Some(units)),
        Transaction(turn, Expense, CostOfSalesDescription(p.name), units * p.purchaseCost, None) ]
    else []
  }

  /** Entries of all sales of a turn, in catalog order. */
  function SalesLog(ps: seq<Product>, ds: seq<Draw>, turn: int): seq<Transaction>
    requires |ps| == |ds|
  {
    if ps == [] then []
    else
      var n := |ps| - 1;
      SalesLog(ps[..n], ds[..n], turn) + SaleEntries(ps[n], UnitsSold(ps[n], ds[n]), turn)
  }

  /** The closing "Despesas Operacionais Diárias" entry. */
  function OperatingEntry(turn: int): Transaction {
    Transaction(turn, Expense, OPERATING_DESCRIPTION, OPERATING_EXPENSE, None)
  }

  /** Everything one turn appends to the log. */
  function TurnLog(ps: seq<Product>, ds: seq<Draw>, turn: int): seq<Transaction>
    requires |ps| == |ds|
  {
    SalesLog(ps, ds, turn) + [OperatingEntry(turn)]
  }

  /** Gross takings of a turn: the sum of units * price. */
  function SalesIncome(ps: seq<Product>, ds: seq<Draw>): int
    requires |ps| == |ds|
  {
    if ps == [] then 0
    else
      var n := |ps| - 1;
      SalesIncome(ps[..n], ds[..n]) + UnitsSold(ps[n], ds[n]) * ps[n].price
  }

  /** Cost of the goods sold in a turn: the sum of units * purchase cost. */
  function CostOfSales(ps: seq<Product>, ds: seq<Draw>): int
    requires |ps| == |ds|
  {
    if ps == [] then 0
    else
      var n := |ps| - 1;
      CostOfSales(ps[..n], ds[..n]) + UnitsSold(ps[n], ds[n]) * ps[n].purchaseCost
  }

  /** Units sold in a turn over the whole catalog. */
  function UnitsSoldTotal(ps: seq<Product>, ds: seq<Draw>): int
    requires |ps| == |ds|
  {
    if ps == [] then 0
    else
      var n := |ps| - 1;
      UnitsSoldTotal(ps[..n], ds[..n]) + UnitsSold(ps[n], ds[n])
  }

  /** Number of products that sell in a turn. */
  function SellingCount(ps: seq<Product>, ds: seq<Draw>): nat
    requires |ps| == |ds|
  {
    if ps == [] then 0
    else
      var n := |ps| - 1;
      SellingCount(ps[..n], ds[..n]) + (if UnitsSold(ps[n], ds[n]) > 0 then 1 else 0)
  }

  /** Extending the processed prefix of the catalog by one product. */
  lemma SalesStep(ps: seq<Product>, ds: seq<Draw>, i: nat, turn: int)
    requires |ps| == |ds| && i < |ps|
    ensures
      var u := UnitsSold(ps[i], ds[i]);
      SalesLog(ps[..i + 1], ds[..i + 1], turn) == SalesLog(ps[..i], ds[..i], turn) + SaleEntries(ps[i], u, turn) &&
      SalesIncome(ps[..i + 1], ds[..i + 1]) == SalesIncome(ps[..i], ds[..i]) + u * ps[i].price &&
      CostOfSales(ps[..i + 1], ds[..i + 1]) == CostOfSales(ps[..i], ds[..i]) + u * ps[i].purchaseCost
  {
    assert ps[..i + 1][..i] == ps[..i];
    assert ds[..i + 1][..i] == ds[..i];
  }

  /** The sales entries record the takings as revenue and the cost of goods sold as expense. */
  lemma {:induction false} SalesLogTotals(ps: seq<Product>, ds: seq<Draw>, turn: int)
    requires |ps| == |ds|
    ensures RevenueTotal(SalesLog(ps, ds, turn)) == SalesIncome(ps, ds)
    ensures ExpenseTotal(SalesLog(ps, ds, turn)) == CostOfSales(ps, ds)
  {
    if ps != [] {
      var n := |ps| - 1;
      SalesLogTotals(ps[..n], ds[..n], turn);
      var e := SaleEntries(ps[n], UnitsSold(ps[n], ds[n]), turn);
      TotalsOfConcat(SalesLog(ps[..n], ds[..n], turn), e);
      var u := UnitsSold(ps[n], ds[n]);
      if e != [] {
        assert e[..1][..0] == [] && e[..|e| - 1] == e[..1];
        assert RevenueTotal(e[..1]) == u * ps[n].price && ExpenseTotal(e[..1]) == 0;
        assert RevenueTotal(e) == u * ps[n].price && ExpenseTotal(e) == u * ps[n].purchaseCost;
      }
    }
  }

  /** Over a whole turn the log gains the takings as revenue and COGS plus 50.00 as expense. */
  lemma TurnLogTotals(ps: seq<Product>, ds: seq<Draw>, turn: int)
    requires |ps| == |ds|
    ensures RevenueTotal(TurnLog(ps, ds, turn)) == SalesIncome(ps, ds)
    ensures ExpenseTotal(TurnLog(ps, ds, turn)) == CostOfSales(ps, ds) + OPERATING_EXPENSE
  {
    SalesLogTotals(ps, ds, turn);
    TotalsOfConcat(SalesLog(ps, ds, turn), [OperatingEntry(turn)]);
    assert [OperatingEntry(turn)][..0] == [];
  }

  /**
   * Shape of the sales entries: two per selling product, a revenue entry
   * carrying the positive unit count immediately followed by an expense
   * entry without one, all stamped with the turn.
   */
  lemma {:induction false} SalesLogShape(ps: seq<Product>, ds: seq<Draw>, turn: int)
    requires |ps| == |ds|
    ensures |SalesLog(ps, ds, turn)| == 2 * SellingCount(ps, ds)
    ensures forall j :: 0 <= j < |SalesLog(ps, ds, turn)| ==>
      var e := SalesLog(ps, ds, turn)[j];
      e.turn == turn &&
      (j % 2 == 0 ==> e.kind == Revenue && e.quantity.Some? && e.quantity.value > 0) &&
      (j % 2 == 1 ==> e.kind == Expense && e.quantity.None?)
  {
    if ps != [] {
      var n := |ps| - 1;
      SalesLogShape(ps[..n], ds[..n], turn);
      var prior := SalesLog(ps[..n], ds[..n], turn);
      var e := SaleEntries(ps[n], UnitsSold(ps[n], ds[n]), turn);
      var all := SalesLog(ps, ds, turn);
      assert all == prior + e;
      forall j | 0 <= j < |all|
        ensures all[j].turn == turn
        ensures j % 2 == 0 ==> all[j].kind == Revenue && all[j].quantity.Some? && all[j].quantity.value > 0
        ensures j % 2 == 1 ==> all[j].kind == Expense && all[j].quantity.None?
      {
        if j >= |prior| {
          assert all[j] == e[j - |prior|];
        } else {
          assert all[j] == prior[j];
        }
      }
    }
  }

  /**
   * Every entry of a turn carries the turn number, and the operating charge
   * is the last one.
   */
  lemma TurnLogShape(ps: seq<Product>, ds: seq<Draw>, turn: int)
    requires |ps| == |ds|
    ensures |TurnLog(ps, ds, turn)| == 2 * SellingCount(ps, ds) + 1
    ensures forall j :: 0 <= j < |TurnLog(ps, ds, turn)| ==> TurnLog(ps, ds, turn)[j].turn == turn
    ensures TurnLog(ps, ds, turn)[|TurnLog(ps, ds, turn)| - 1] == OperatingEntry(turn)
  {
    SalesLogShape(ps, ds, turn);
  }

  /** A turn in which no product sells appends only the operating charge. */
  lemma {:induction false} QuietTurn(ps: seq<Product>, ds: seq<Draw>, turn: int)
    requires |ps| == |ds|
    requires forall i :: 0 <= i < |ps| ==> ps[i].stock <= 0 || ds[i].chance <= SALE_THRESHOLD
    ensures TurnLog(ps, ds, turn) == [OperatingEntry(turn)]
    ensures AfterSales(ps, ds) == ps
    ensures SalesIncome(ps, ds) == 0 && CostOfSales(ps, ds) == 0
  {
    if ps != [] {
      var n := |ps| - 1;
      QuietTurn(ps[..n], ds[..n], turn);
    }
  }
}
