/**
 * The game state of the Pet Shop simulator and the operations that change it:
 * loading (with its backfill), the ledger's add-transaction, reset, advancing a
 * turn, buying stock, repricing, and importing a parsed save.
 */
module Game {
  import opened Wrappers
  import opened Ledger
  import opened Inventory
  import opened Turn
  import Dashboard

  /** The starting capital, 1000.00. */
  const INITIAL_CASH: int := 100000

  /** The single entry of a new game's log. */
  function CapitalEntry(): Transaction {
    Transaction(1, Revenue, CAPITAL_DESCRIPTION, INITIAL_CASH, None)
  }

  /**
   * A saved state as read back from storage; a collection that is missing
   * (or null) is None.
   */
  datatype Snapshot = Snapshot(
    currentTurn: int,
    cash: int,
    profit: int,
    revenue: int,
    expenses: int,
    products: Option<seq<Product>>,
    transactions: Option<seq<Transaction>>)

  /**
   * An imported file after parsing. The three fields the import checks are
   * None when missing or not of the required type (a number, a number, an array).
   */
  datatype ImportedRecord = ImportedRecord(
    currentTurn: Option<int>,
    cash: Option<int>,
    profit: int,
    revenue: int,
    expenses: int,
    products: Option<seq<Product>>,
    transactions: seq<Transaction>)

  /** The shape test an imported value must pass; None stands for a falsy value. */
  predicate AcceptsImport(parsed: Option<ImportedRecord>) {
    parsed.Some? && parsed.value.currentTurn.Some? && parsed.value.cash.Some? &&
    parsed.value.products.Some?
  }

  /** The cash, running totals and log at some point, kept to compare against. */
  datatype Books = Books(cash: int, revenue: int, expenses: int, profit: int, transactions: seq<Transaction>)

  class GameState {
    var currentTurn: int
    var cash: int
    var profit: int
    var revenue: int
    var expenses: int
    var products: seq<Product>
    var transactions: seq<Transaction>

    /** The running totals agree with the log, and profit is revenue minus expenses. */
    ghost predicate LedgerConsistent()
      reads this
    {
      revenue == RevenueTotal(transactions) &&
      expenses == ExpenseTotal(transactions) &&
      profit == revenue - expenses
    }

    /** What every state reached from a new game satisfies. */
    ghost predicate Valid()
      reads this
    {
      LedgerConsistent() && StocksNonNegative(products) && currentTurn >= 1 &&
      StampedUpTo(transactions, currentTurn)
    }

    /** The state `resetGame` produces. */
    ghost predicate IsNewGame()
      reads this
    {
      currentTurn == 1 && cash == INITIAL_CASH &&
      revenue == INITIAL_CASH && profit == INITIAL_CASH && expenses == 0 &&
      products == InitialCatalog() && transactions == [CapitalEntry()]
    }

    /**
     * `loadGameState`: with nothing saved, a new game; otherwise the saved state
     * with a missing catalog replaced by the initial one, a missing log by an
     * empty one, and the initial capital recorded when the state is at turn 1
     * with an empty log.
     */
    constructor Load(saved: Option<Snapshot>)
      ensures saved.None? ==> IsNewGame() && Valid()
      ensures saved.Some? ==>
        var s := saved.value;
        var log := if s.transactions.Some? then s.transactions.value else [];
        currentTurn == s.currentTurn && cash == s.cash &&
        products == (if s.products.Some? then s.products.value else InitialCatalog()) &&
        if s.currentTurn == 1 && |log| == 0 then
          transactions == [CapitalEntry()] && revenue == s.revenue + INITIAL_CASH &&
          expenses == s.expenses && profit == s.profit + INITIAL_CASH
        else
          transactions == log && revenue == s.revenue &&
          expenses == s.expenses && profit == s.profit
    {
      if saved.None? {
        currentTurn, cash, profit, revenue, expenses := 1, INITIAL_CASH, 0, 0, 0;
        products, transactions := InitialCatalog(), [];
      } else {
        var s := saved.value;
        currentTurn, cash := s.currentTurn, s.cash;
        profit, revenue, expenses := s.profit, s.revenue, s.expenses;
        products := if s.products.Some? then s.products.value else InitialCatalog();
        transactions := if s.transactions.Some? then s.transactions.value else [];
      }
      new;
      if saved.None? {
        Reset();
      } else if currentTurn == 1 && |transactions| == 0 {
        AddTransaction(1, Revenue, CAPITAL_DESCRIPTION, INITIAL_CASH, None);
      }
    }

    /**
     * `addTransaction`: appends one entry and moves the running totals; the
     * difference profit - (revenue - expenses) is kept, and so is consistency
     * with the log.
     */
    method AddTransaction(turn: int, kind: Kind, description: string, amount: int, quantity: Option<int>)
      modifies this`transactions, this`revenue, this`expenses, this`profit
      ensures transactions == old(transactions) + [Transaction(turn, kind, description, amount, quantity)]
      ensures kind == Revenue ==>
        revenue == old(revenue) + amount && profit == old(profit) + amount && expenses == old(expenses)
      ensures kind == Expense ==>
        expenses == old(expenses) + amount && profit == old(profit) - amount && revenue == old(revenue)
      ensures profit - (revenue - expenses) == old(profit - (revenue - expenses))
      ensures old(LedgerConsistent()) ==> LedgerConsistent()
    {
      var t := Transaction(turn, kind, description, amount, quantity);
      transactions := transactions + [t];
      if kind == Revenue {
        revenue := revenue + amount;
        profit := profit + amount;
      } else {
        expenses := expenses + amount;
        profit := profit - amount;
      }
      assert transactions[..|transactions| - 1] == old(transactions);
    }

    /** `resetGame`: the initial state with the initial capital recorded. */
    method Reset()
      modifies this
      ensures IsNewGame() && Valid()
    {
      currentTurn, cash, profit, revenue, expenses := 1, INITIAL_CASH, 0, 0, 0;
      products, transactions := InitialCatalog(), [];
      AddTransaction(1, Revenue, CAPITAL_DESCRIPTION, INITIAL_CASH, None);
    }

    /**
     * `advanceTurn`: the turn goes up by one, every product is offered for sale
     * with its draw, the sales and the operating charge are logged under the
     * new turn, and cash moves by the takings minus 50.00.
     */
    method AdvanceTurn(draws: seq<Draw>)
      requires |draws| == |products|
      modifies this
      ensures currentTurn == old(currentTurn) + 1
      ensures products == AfterSales(old(products), draws)
      ensures transactions == old(transactions) + TurnLog(old(products), draws, currentTurn)
      ensures cash == old(cash) + SalesIncome(old(products), draws) - OPERATING_EXPENSE
      ensures revenue == old(revenue) + SalesIncome(old(products), draws)
      ensures expenses == old(expenses) + CostOfSales(old(products), draws) + OPERATING_EXPENSE
      ensures profit ==
        old(profit) + SalesIncome(old(products), draws) - CostOfSales(old(products), draws) - OPERATING_EXPENSE
      ensures old(Valid()) ==> Valid()
    {
      currentTurn := currentTurn + 1;
      SellCatalog(draws);
      cash := cash - OPERATING_EXPENSE;
      AddTransaction(currentTurn, Expense, OPERATING_DESCRIPTION, OPERATING_EXPENSE, None);
      ghost var catalog, log := old(products), old(transactions);
      ghost var entries := TurnLog(catalog, draws, currentTurn);
      assert transactions == log + entries;
      if old(Valid()) {
        TurnLogTotals(catalog, draws, currentTurn);
        TotalsOfConcat(log, entries);
        SalesKeepStocksNonNegative(catalog, draws);
        TurnLogShape(catalog, draws, currentTurn);
        AppendStamped(log, entries, old(currentTurn), currentTurn);
      }
    }

    /**
     * The `products.forEach` loop of `advanceTurn`: each product in catalog
     * order is offered for sale with its own draw.
     */
    method SellCatalog(draws: seq<Draw>)
      requires |draws| == |products|
      modifies this`products, this`cash, this`transactions, this`revenue, this`expenses, this`profit
      ensures products == AfterSales(old(products), draws)
      ensures transactions == old(transactions) + SalesLog(old(products), draws, currentTurn)
      ensures cash == old(cash) + SalesIncome(old(products), draws)
      ensures revenue == old(revenue) + SalesIncome(old(products), draws)
      ensures expenses == old(expenses) + CostOfSales(old(products), draws)
      ensures profit == old(profit) + SalesIncome(old(products), draws) - CostOfSales(old(products), draws)
    {
      ghost var start := Books(cash, revenue, expenses, profit, transactions);
      ghost var catalog := products;
      var i := 0;
      while i < |products|
        invariant 0 <= i <= |products| == |catalog| == |draws|
        invariant SoldUpTo(i, catalog, draws, start)
      {
        SellNext(i, catalog, draws, start);
        i := i + 1;
      }
      assert catalog[..i] == catalog && draws[..i] == draws;
      assert forall k :: 0 <= k < |products| ==> products[k] == AfterSales(catalog, draws)[k];
    }

    /**
     * After the first `i` products of `catalog` have been offered for sale:
     * those carry their new stock, the rest are untouched, and the log and the
     * totals have moved by the sales of that prefix since `start`.
     */
    ghost predicate SoldUpTo(i: nat, catalog: seq<Product>, draws: seq<Draw>, start: Books)
      reads this
    {
      i <= |catalog| == |draws| == |products| &&
      (forall k :: 0 <= k < i ==> products[k] == AfterSale(catalog[k], draws[k])) &&
      (forall k :: i <= k < |products| ==> products[k] == catalog[k]) &&
      var income, cogs := SalesIncome(catalog[..i], draws[..i]), CostOfSales(catalog[..i], draws[..i]);
      transactions == start.transactions + SalesLog(catalog[..i], draws[..i], currentTurn) &&
      cash == start.cash + income &&
      revenue == start.revenue + income &&
      expenses == start.expenses + cogs &&
      profit == start.profit + income - cogs
    }

    /** One step of the loop of `SellCatalog`. */
    method SellNext(i: nat, ghost catalog: seq<Product>, draws: seq<Draw>, ghost start: Books)
      requires i < |catalog| && SoldUpTo(i, catalog, draws, start)
      modifies this`products, this`cash, this`transactions, this`revenue, this`expenses, this`profit
      ensures SoldUpTo(i + 1, catalog, draws, start)
    {
      OfferForSale(i, draws[i]);
      SalesStep(catalog, draws, i, currentTurn);
    }

    /**
     * The body of the per-product loop of `advanceTurn`: a product with stock
     * whose chance draw exceeds 0.3 sells, its stock drops, cash takes the sale,
     * and a revenue entry and a cost-of-goods-sold entry are logged.
     */
    method OfferForSale(i: nat, draw: Draw)
      requires i < |products|
      modifies this`products, this`cash, this`transactions, this`revenue, this`expenses, this`profit
      ensures
        var p := old(products)[i];
        var u := UnitsSold(p, draw);
        products == old(products)[i := AfterSale(p, draw)] &&
        transactions == old(transactions) + SaleEntries(p, u, currentTurn) &&
        cash == old(cash) + u * p.price &&
        revenue == old(revenue) + u * p.price &&
        expenses == old(expenses) + u * p.purchaseCost &&
        profit == old(profit) + u * p.price - u * p.purchaseCost
    {
      var product := products[i];
      if product.stock > 0 {
        var salesChance := draw.chance;
        if salesChance > SALE_THRESHOLD {
          var maxSell := Min(product.stock, UnitDraw(draw));
          if maxSell > 0 {
            var saleAmount := maxSell * product.price;
            var costOfGoodsSold := maxSell * product.purchaseCost;
            products := products[i := product.(stock := product.stock - maxSell)];
            cash := cash + saleAmount;
            AddTransaction(currentTurn, Revenue, SaleDescription(maxSell, product.name), saleAmount, Some(maxSell));
            AddTransaction(currentTurn, Expense, CostOfSalesDescription(product.name), costOfGoodsSold, None);
          }
        }
      }
    }

    /**
     * `buyProduct`: refused, with nothing changed, for a non-positive quantity,
     * an unknown id or too little cash; otherwise cash pays quantity * cost
     * (and stays non-negative), the first product with that id gains exactly
     * `quantity` units, and one purchase expense is logged at the current turn.
     */
    method BuyProduct(productId: string, quantity: int) returns (ok: bool)
      modifies this
      ensures ok <==>
        quantity > 0 && Find(old(products), productId).Some? &&
        old(cash) >= quantity * old(products)[Find(old(products), productId).value].purchaseCost
      ensures !ok ==> unchanged(this)
      ensures ok ==>
        var i := Find(old(products), productId).value;
        var p := old(products)[i];
        var totalCost := quantity * p.purchaseCost;
        cash == old(cash) - totalCost && cash >= 0 &&
        products == old(products)[i := p.(stock := p.stock + quantity)] &&
        transactions == old(transactions) +
          [Transaction(old(currentTurn), Expense, PurchaseDescription(quantity, p.name), totalCost, None)] &&
        revenue == old(revenue) && expenses == old(expenses) + totalCost &&
        profit == old(profit) - totalCost && currentTurn == old(currentTurn)
      ensures old(Valid()) ==> Valid()
    {
      if quantity <= 0 {
        return false;
      }
      var found := Find(products, productId);
      if found.Some? {
        var i := found.value;
        var product := products[i];
        var totalCost := quantity * product.purchaseCost;
        if cash >= totalCost {
          cash := cash - totalCost;
          products := products[i := product.(stock := product.stock + quantity)];
          AddTransaction(currentTurn, Expense, PurchaseDescription(quantity, product.name), totalCost, None);
          if old(Valid()) {
            AppendStamped(old(transactions), [transactions[|transactions| - 1]], currentTurn, currentTurn);
          }
          return true;
        } else {
          return false;
        }
      }
      return false;
    }

    /**
     * `updateProductPrice`: refused, with nothing changed, for a non-positive
     * price or an unknown id; otherwise only the price of the first product
     * with that id changes, and nothing is logged.
     */
    method UpdateProductPrice(productId: string, newPrice: int) returns (ok: bool)
      modifies this
      ensures ok <==> newPrice > 0 && Find(old(products), productId).Some?
      ensures !ok ==> unchanged(this)
      ensures ok ==>
        var i := Find(old(products), productId).value;
        products == old(products)[i := old(products)[i].(price := newPrice)] &&
        transactions == old(transactions) && cash == old(cash) && currentTurn == old(currentTurn) &&
        revenue == old(revenue) && expenses == old(expenses) && profit == old(profit)
      ensures old(Valid()) ==> Valid()
    {
      if newPrice <= 0 {
        return false;
      }
      var found := Find(products, productId);
      if found.Some? {
        var i := found.value;
        products := products[i := products[i].(price := newPrice)];
        return true;
      }
      return false;
    }

    /**
     * `getSalesQuantityPerTurnData` on the current state: the units sold per
     * turn, and, in every state reached from a new game, one category for
     * each turn from 1 to the current one.
     */
    method SalesQuantityPerTurnData() returns (categories: seq<int>, seriesData: seq<int>)
      ensures |seriesData| == |categories|
      ensures forall i :: 0 <= i < |categories| ==>
        seriesData[i] == Dashboard.QuantityOn(transactions, categories[i])
      ensures Valid() ==>
        |categories| == currentTurn && forall i :: 0 <= i < currentTurn ==> categories[i] == i + 1
    {
      categories, seriesData := Dashboard.SalesQuantityPerTurn(currentTurn, transactions);
    }

    /**
     * `importGame` after parsing: a value that passes the shape test replaces
     * the whole state; anything else is refused and changes nothing.
     */
    method Import(parsed: Option<ImportedRecord>) returns (ok: bool)
      modifies this
      ensures ok <==> AcceptsImport(parsed)
      ensures !ok ==> unchanged(this)
      ensures ok ==>
        var r := parsed.value;
        currentTurn == r.currentTurn.value && cash == r.cash.value &&
        profit == r.profit && revenue == r.revenue && expenses == r.expenses &&
        products == r.products.value && transactions == r.transactions
    {
      if AcceptsImport(parsed) {
        var r := parsed.value;
        currentTurn, cash := r.currentTurn.value, r.cash.value;
        profit, revenue, expenses := r.profit, r.revenue, r.expenses;
        products, transactions := r.products.value, r.transactions;
        return true;
      }
      return false;
    }
  }
}
