# Pet Shop simulator — turn and ledger engine in Dafny

This project models the core of the Pet Shop simulator, a browser game. The
player runs a shop with a small catalog of products. They buy stock at purchase
cost, set selling prices and advance the game one day (turn) at a time. On each
turn some products sell at random, and a fixed operating charge is paid. Every
money movement goes into an append-only ledger of transactions, and the game
keeps running revenue, expense and profit totals beside it. A dashboard shows
figures derived from the state: units sold per turn, total stock, stock value,
total assets and a top-5 most-sold chart.

Money is in integer cents: 1000.00 is `100000` and 50.00 is `5000`. Every
constant in the game is a whole number of cents.

Each call to `Math.random()` becomes a parameter. On a turn each product gets
a `Draw(chance, unit)`:

- a sale happens exactly when `chance > 0.3`;
- the number of units is `Floor(unit * 5) + 1`.

Modules:

- `Wrappers`: the `Option` type.
- `Ledger`: transactions, the revenue and expense totals of a log, and the
  descriptions the engine writes, including the decimal printing of a quantity.
- `Inventory`: products, the initial catalog and lookup by id.
- `Turn`: one turn's sales as values. It covers the units each product sells,
  the catalog afterwards, the entries appended and the money taken. It also
  holds the lemmas about them.
- `Game`: the game state as a class whose methods update its fields in place.
  Those methods are load, add-transaction, reset, advance-turn, buy, reprice,
  import, and a read-only query for the sales series. `Valid` says four things:
  - the totals agree with the log, and profit is revenue minus expenses;
  - no stock is negative;
  - the turn is at least 1;
  - every entry is stamped with a turn from 1 to the current one, in
    non-decreasing order.

  Reset, and a load with nothing saved, establish `Valid`. Advance, buy and
  reprice keep it. Add-transaction keeps the totals in agreement with the log.
  Loading a saved state and importing take the given state as it is, as the
  game does, so neither promises `Valid`. Advance-turn is proved against the
  `Turn` functions and the `Ledger` totals. Buy is proved against the
  catalog lookup and the purchase description.
- `Dashboard`: the sales-volume series (a loop over a map, as in the source),
  stock and asset sums, and the top-5 selection. Their lemmas tie these
  figures to the engine's turns.

## Model

| member | source | states |
|---|---|---|
| Ledger.RevenueTotal | js/gameLogic.js:52-54 | Computes the sum of the amounts of the revenue entries of a log. |
| Ledger.ExpenseTotal | js/gameLogic.js:55-57 | Computes the sum of the amounts of the expense entries of a log. |
| Ledger.TotalsOfConcat | js/gameLogic.js:49-58 | Appending entries adds their revenue and expense amounts to the totals, so incremental totals equal the totals of the log. |
| Ledger.TotalsNonNegative | js/gameLogic.js:49-58 | If every amount in the log is non-negative, then both totals are non-negative. |
| Ledger.StampedUpTo | js/gameLogic.js:86-95 | Holds when every entry carries a turn from 1 to the given one and the turns never go down along the log. |
| Ledger.AppendStamped | js/gameLogic.js:86-113 | Appending entries stamped with the current turn, which is no earlier than any turn in the log, keeps the log stamped. |
| Ledger.DecimalString | js/gameLogic.js:86 | A printed quantity is a non-empty string of decimal digits, with one digit exactly when the number is below 10. |
| Ledger.DecimalRoundTrip | js/gameLogic.js:86 | The digits printed into a sale or purchase description read back as the same number. |
| Ledger.SaleDescription | js/gameLogic.js:86 | Builds "Venda de {units}x {name}". |
| Ledger.CostOfSalesDescription | js/gameLogic.js:87 | Builds "Custo dos produtos vendidos ({name})". |
| Ledger.PurchaseDescription | js/gameLogic.js:113 | Builds "Compra de {quantity}x {name}". |
| Ledger.DescriptionPrefixes | js/app.js:53 | Sale descriptions start with "Venda de"; purchase descriptions and "Capital Inicial" do not. |
| Inventory.InitialCatalog | js/gameLogic.js:12-17 | A new game has four products, all with zero stock and positive cost and price. |
| Inventory.Find | js/gameLogic.js:106 | Lookup by id returns the first product with that id, or nothing exactly when no product has it. |
| Turn.UnitDraw | js/gameLogic.js:77 | Computes the number of units the unit draw picks, Floor(unit × 5) + 1. |
| Turn.UnitsSold | js/gameLogic.js:74-78 | Computes the units a product sells: min(stock, unit draw) when it has stock and the chance draw exceeds 0.3, otherwise 0. |
| Turn.AfterSale | js/gameLogic.js:82 | Computes a product after its sale, with its stock lowered by the units sold. |
| Turn.AfterSales | js/gameLogic.js:73-91 | Computes the whole catalog after every product has been offered for sale. |
| Turn.SaleEntries | js/gameLogic.js:86-87 | Builds the two entries of one sale: revenue of units × price with the quantity, then the cost of goods sold, units × cost, without one. |
| Turn.SalesLog | js/gameLogic.js:73-91 | Builds the sale entries of a turn, product by product in catalog order. |
| Turn.OperatingEntry | js/gameLogic.js:93-95 | Builds the 50.00 "Despesas Operacionais Diárias" expense of a turn. |
| Turn.TurnLog | js/gameLogic.js:73-95 | Builds everything a turn logs: its sale entries, then the operating charge. |
| Turn.SalesIncome | js/gameLogic.js:79-83 | Computes the takings of a turn, the sum of units × price over the catalog. |
| Turn.CostOfSales | js/gameLogic.js:80-87 | Computes the cost of goods sold in a turn, the sum of units × purchase cost. |
| Turn.UnitDrawRange | js/gameLogic.js:77 | A unit draw in [0, 1) gives between 1 and 5 units. |
| Turn.UnitsSoldRange | js/gameLogic.js:74-78 | A product sells nothing exactly when it has no stock or its chance draw is at most 0.3. Otherwise it sells min(stock, draw) units, between 1 and min(stock, 5). |
| Turn.AfterSalesEffect | js/gameLogic.js:73-82 | After the sales only stock changes, and it drops by the units sold. Stock never goes below zero, and a product that does not sell is unchanged. |
| Turn.SalesKeepStocksNonNegative | js/gameLogic.js:77-82 | Selling keeps every stock non-negative. |
| Turn.SalesStep | js/gameLogic.js:73-91 | The loop-step lemma of the catalog loop: the log, takings and cost of sales of a prefix one product longer equal those of the prefix plus that product's entries and amounts, by unfolding their definitions once. |
| Turn.SalesLogTotals | js/gameLogic.js:79-87 | The sales entries add the takings (units × price) to revenue and the cost of goods sold (units × cost) to expenses. |
| Turn.TurnLogTotals | js/gameLogic.js:79-95 | A whole turn adds the takings to revenue, and adds the cost of goods sold plus 50.00 to expenses. |
| Turn.SalesLogShape | js/gameLogic.js:86-87 | For each selling product there are two entries: a revenue entry with a positive quantity, immediately followed by an expense entry without one. All are stamped with the turn. |
| Turn.TurnLogShape | js/gameLogic.js:73-95 | Every entry of a turn carries the new turn number, and the 50.00 operating charge always comes last. |
| Turn.QuietTurn | js/gameLogic.js:74-76 | When no product has both stock and a chance draw above 0.3, the turn logs only the operating charge. The catalog is unchanged and there are no takings. |
| Game.CapitalEntry | js/gameLogic.js:65 | Builds the "Capital Inicial" revenue entry of 1000.00 at turn 1. |
| Game.AcceptsImport | js/gameLogic.js:160 | Holds when the parsed value has a numeric turn, numeric cash and a product array. |
| Game.GameState.Valid | js/gameLogic.js:49-98 | Holds when the totals agree with the log, profit is revenue minus expenses, no stock is negative, the turn is at least 1 and the log is stamped with turns 1 to the current one in order. |
| Game.GameState.Load | js/gameLogic.js:23-41 | With nothing saved the game is a new game. Otherwise the saved state is used, a missing catalog or log is filled in, and at turn 1 with an empty log the initial capital is recorded. |
| Game.GameState.AddTransaction | js/gameLogic.js:49-60 | Exactly one entry is appended. Revenue adds to revenue and profit, and expense adds to expenses and subtracts from profit. Profit − (revenue − expenses) and agreement with the log are preserved. |
| Game.GameState.Reset | js/gameLogic.js:63-67 | The result is turn 1, cash, revenue and profit 1000.00, expenses 0, the initial catalog, and a log of the single "Capital Inicial" entry. |
| Game.GameState.AdvanceTurn | js/gameLogic.js:70-98 | The turn grows by one. The catalog becomes the post-sale catalog and the log gains exactly that turn's entries. Cash moves by the takings minus 50.00, and the totals by the matching amounts. Validity is preserved. |
| Game.GameState.SellCatalog | js/gameLogic.js:73-91 | Offering every product in catalog order leaves the post-sale catalog, appends the turn's sales entries, and adds the takings to cash. |
| Game.GameState.SellNext | js/gameLogic.js:73-91 | One iteration of the catalog loop moves the processed prefix forward by one product. |
| Game.GameState.OfferForSale | js/gameLogic.js:74-90 | One product sells its units: stock drops, cash and revenue gain units × price, expenses gain units × cost, and the two sale entries are logged. |
| Game.GameState.BuyProduct | js/gameLogic.js:101-122 | Succeeds exactly when quantity > 0, the id exists and cash covers quantity × cost; a refusal changes nothing. On success cash pays the cost and stays non-negative. The product gains exactly that quantity, one purchase expense without a quantity is logged at the current turn, and the turn stays the same. |
| Game.GameState.UpdateProductPrice | js/gameLogic.js:125-137 | Succeeds exactly when the price is positive and the id exists; a refusal changes nothing. On success only that product's price changes and nothing is logged. |
| Game.GameState.Import | js/gameLogic.js:160-166 | A parsed value is accepted exactly when it has a numeric turn, numeric cash and a product array. It then replaces the whole state; otherwise nothing changes. |
| Dashboard.Qualifies | js/app.js:53 | Holds for a revenue entry whose description starts with "Venda de" and that carries a quantity. |
| Dashboard.QuantityOn | js/app.js:51-56 | Computes the sum of the quantities of the qualifying entries of one turn. |
| Dashboard.QuantityOffTurns | js/app.js:51-56 | A turn with no qualifying entry has zero units sold. |
| Dashboard.Insert | js/app.js:59 | Inserting a new key into an ascending key list keeps it strictly ascending, with exactly one more key. |
| Dashboard.SortAscending | js/app.js:59 | The distinct keys come out in strictly ascending order, with the same members. |
| Dashboard.SalesQuantityPerTurn | js/app.js:42-63 | The categories are ascending and are exactly turns 1..currentTurn plus every turn with a sale. Each value is the number of units sold in its category's turn. For a log stamped with turns 1..currentTurn, the categories are exactly 1, 2, …, currentTurn. |
| Dashboard.QualifyingTurnsWithin | js/app.js:51-56 | Every turn with a sale in a log stamped with turns 1..n lies in 1..n. |
| Game.GameState.SalesQuantityPerTurnData | js/app.js:42-44 | On the current state, each value is the units sold in its category's turn. In a valid state the categories are exactly 1, 2, …, currentTurn. |
| Dashboard.CategoriesAreTurns | js/app.js:47-60 | When every sale lies in turns 1..currentTurn, the categories are exactly 1, 2, …, currentTurn. |
| Dashboard.CountUp | js/app.js:59 | A strictly ascending sequence holding exactly 1..n is 1, 2, …, n. |
| Dashboard.SeriesSumStep | js/app.js:51-56 | Dropping the last log entry lowers the per-key sum by that entry's units, when its turn is a key. |
| Dashboard.SeriesSumCovers | js/app.js:51-60 | Summed over keys that cover every turn with a sale, the per-turn units give all units sold in the log. |
| Dashboard.ZeroSeries | js/app.js:47-49 | Over an empty log, the sum of the per-turn units over any list of turns is 0 (the base case of the series total). |
| Dashboard.SeriesTotal | js/app.js:51-60 | The series values add up to all qualifying quantities in the log, so each sale is counted once. |
| Dashboard.SumIsSeriesSum | js/app.js:60 | Summing the series values is the same as summing the per-turn units over the categories. |
| Dashboard.QuantityNonNegative | js/app.js:51-56 | If no quantity is negative, then no turn has negative units sold. |
| Dashboard.QuantityOnConcat | js/app.js:51-56 | The units sold in a turn add up over concatenated logs. |
| Dashboard.OnlySalesCount | js/app.js:53 | Sale revenues count toward the series. Cost-of-goods-sold entries, the initial capital, purchases and the operating charge never do. |
| Dashboard.SalesLogVolume | js/app.js:51-56 | A turn's sales entries put all units sold under that turn and nothing under any other. |
| Dashboard.TurnSalesVolume | js/app.js:51-56 | After a turn, the series gains the units sold at that turn only. |
| Dashboard.TotalStock | js/app.js:70 | Computes the sum of the stock over the catalog. |
| Dashboard.StockValue | js/app.js:193 | Computes the sum of stock × purchase cost over the catalog. |
| Dashboard.TotalAssets | js/app.js:195 | Computes cash plus the stock value. |
| Dashboard.StockTotalsNonNegative | js/app.js:70 | With no negative stock, total stock is non-negative, and so is stock value when costs are non-negative. |
| Dashboard.UpdateOne | js/app.js:193 | Replacing one product changes total stock and stock value by that product's difference. |
| Dashboard.PurchaseKeepsAssets | js/app.js:195 | A purchase turns cash into stock at cost. Total assets are unchanged, and total stock grows by the quantity bought. |
| Dashboard.RepriceKeepsAssets | js/app.js:195 | Repricing changes neither total stock nor total assets. |
| Dashboard.SalesReduceStock | js/app.js:70 | A turn's sales remove exactly the units sold from total stock and their cost from stock value. |
| Dashboard.TurnAssets | js/app.js:195 | Over a turn, total assets move by the takings minus the cost of sales minus 50.00, which is exactly the change in profit. |
| Dashboard.InsertKeepsOrder | js/app.js:32 | Inserting an entry into a list ordered by decreasing sales keeps it ordered, one entry longer. |
| Dashboard.InsertAddsOne | js/app.js:32 | Insertion adds exactly that one entry. |
| Dashboard.SortBySales | js/app.js:32 | The sort gives an ordering by decreasing sales that is a permutation of its input. |
| Dashboard.PrefixIsTop | js/app.js:33 | The first k entries of that ordering sell at least as much as every entry left out. |
| Dashboard.Entries | js/app.js:27-30 | Pairs each product's name with its sales number, in catalog order. |
| Dashboard.TopSelling | js/app.js:32-33 | Computes the first min(5, n) entries of the ordering by decreasing sales. |
| Dashboard.TopSellingSpec | js/app.js:32-33 | The selection holds min(5, n) of the entries, by decreasing sales, and no entry left out sells more than the last one chosen. |
| Dashboard.ChartOf | js/app.js:36-37 | The names and values arrays have equal length and read back as the selected pairs. |
| Dashboard.MostSoldChart | js/app.js:17-38 | An empty catalog gives two empty arrays. Otherwise the chart shows min(5, n) products by decreasing sales, drawn from the catalog's entries, and no product left out sells more than the last one shown. |

## Left out

- DOM rendering, page navigation and event handlers, along with every chart library call and the demo series: these are display only.
- `Math.random`: the draws are parameters. A turn takes one `Draw` per product by catalog position. The source skips the chance draw for a product without stock and skips the unit draw unless the chance draw succeeds, so the order in which a random stream is consumed is not modelled.
- The top-5 sales numbers (random in the source, between 50 and 549) and the random "Vendidos" column are not modelled. The top-5 chart takes its sales numbers as a parameter.
- Persistence, export and file reading (`localStorage`, `JSON.stringify`/`JSON.parse`, `Blob` download, `FileReader` and its Promise) are left out. Load takes an already-read snapshot and import takes an already-parsed record. A missing field is `None`.
- Game.GameState.Import: of the imported record, only the three fields the source checks may be missing. Profit, revenue, expenses and the log are taken to be present.
- Floating point: amounts are exact integer cents and draws are exact reals. The JavaScript double nearest 0.3 is compared as the exact 0.3. Rounding by `toFixed(2)` and `parseFloat` in the stock value and total assets is not modelled.
- NaN and non-numeric inputs from empty form fields are not modelled. Quantities and prices are integers.
- `alert` messages: a refusal is modelled only as the `false` result.
- Game.GameState.AddTransaction: a type that is neither revenue nor expense is not modelled, because `Kind` has only these two values and every caller passes one of them. The source would log such an entry without moving any total.
- Aliasing is not modelled. When no catalog is saved, the source's load fills in the initial catalog object itself, not a copy, so later in-place sales would also change that shared object. The model treats products as values.
- Dashboard.SalesQuantityPerTurn: the categories are integers. The final conversion to strings is not modelled.
- Dashboard.SortBySales: the sort is stable, but stability is not proved. Its contract states only the order by decreasing sales and the permutation.
- Game.GameState.Import: an accepted record replaces the state as it is, so the result need not be valid (negative stock or out-of-order turns pass), exactly as in the source.
- Game.GameState.Load: the saved state's fields other than the catalog and the log are taken to be present and numeric.

The model follows the code where its observable behaviour is narrower than
a plain reading of the game's rules:

- adding a transaction accepts any amount, negative ones included;
- the sales-volume series counts only revenue entries whose description starts with "Venda de" and that carry a quantity.
