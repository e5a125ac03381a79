/**
 * The ledger of the Pet Shop simulator: the append-only transaction log,
 * the totals derived from it, and the descriptions the engine writes into it.
 * All amounts are in integer cents.
 */
module Ledger {
  import opened Wrappers

  /** The `type` of a transaction: 'revenue' or 'expense'. */
  datatype Kind = Revenue | Expense

  /** One log entry; `quantity` is present only on sale revenues. */
  datatype Transaction = Transaction(
    turn: int,
    kind: Kind,
    description: string,
    amount: int,
    quantity: Option<int>)

  /** Amount a single entry adds to the revenue total. */
  function RevenueOf(t: Transaction): int {
    if t.kind == Revenue then t.amount else 0
  }

  /** Amount a single entry adds to the expense total. */
  function ExpenseOf(t: Transaction): int {
    if t.kind == Expense then t.amount else 0
  }

  /** Sum of the amounts of the revenue entries of a log. */
  function RevenueTotal(log: seq<Transaction>): int {
    if log == [] then 0 else RevenueTotal(log[..|log| - 1]) + RevenueOf(log[|log| - 1])
  }

  /** Sum of the amounts of the expense entries of a log. */
  function ExpenseTotal(log: seq<Transaction>): int {
    if log == [] then 0 else ExpenseTotal(log[..|log| - 1]) + ExpenseOf(log[|log| - 1])
  }

  /** Both totals distribute over concatenation of logs. */
  lemma {:induction false} TotalsOfConcat(a: seq<Transaction>, b: seq<Transaction>)
    ensures RevenueTotal(a + b) == RevenueTotal(a) + RevenueTotal(b)
    ensures ExpenseTotal(a + b) == ExpenseTotal(a) + ExpenseTotal(b)
  {
    if b == [] {
      assert a + b == a;
    } else {
      TotalsOfConcat(a, b[..|b| - 1]);
      assert (a + b)[..|a + b| - 1] == a + b[..|b| - 1];
    }
  }

  /** When every amount is non-negative, so are both totals. */
  lemma {:induction false} TotalsNonNegative(log: seq<Transaction>)
    requires forall i :: 0 <= i < |log| ==> log[i].amount >= 0
    ensures RevenueTotal(log) >= 0 && ExpenseTotal(log) >= 0
  {
    if log != [] {
      TotalsNonNegative(log[..|log| - 1]);
    }
  }

  /** Every entry is stamped with a turn from 1 to `turn`, and the stamps never go down. */
  predicate StampedUpTo(log: seq<Transaction>, turn: int) {
    (forall i :: 0 <= i < |log| ==> 1 <= log[i].turn <= turn) &&
    (forall i, j :: 0 <= i < j < |log| ==> log[i].turn <= log[j].turn)
  }

  /** Appending entries stamped with a turn no earlier than the log's keeps the log stamped. */
  lemma AppendStamped(log: seq<Transaction>, entries: seq<Transaction>, before: int, turn: int)
    requires StampedUpTo(log, before) && before <= turn && 1 <= turn
    requires forall j :: 0 <= j < |entries| ==> entries[j].turn == turn
    ensures StampedUpTo(log + entries, turn)
  {
    var all := log + entries;
    forall i | 0 <= i < |all|
      ensures 1 <= all[i].turn <= turn
      ensures i >= |log| ==> all[i].turn == turn
    {
      if i >= |log| {
        assert all[i] == entries[i - |log|];
      }
    }
  }

  // ----- Descriptions written by the engine -----

  /** Prefix the sales-volume chart looks for. */
  const SALE_PREFIX := "Venda de"
  const CAPITAL_DESCRIPTION := "Capital Inicial"
  const OPERATING_DESCRIPTION := "Despesas Operacionais Diárias"

  function Digit(d: nat): char
    requires d < 10
  {
    "0123456789"[d]
  }

  /** Value of a decimal digit character. */
  function DigitValue(c: char): nat {
    if '0' <= c <= '9' then (c as int - '0' as int) as nat else 0
  }

  /** How a JavaScript template literal prints a natural number. */
  function DecimalString(n: nat): (s: string)
    ensures |s| >= 1
    ensures forall i :: 0 <= i < |s| ==> '0' <= s[i] <= '9'
    ensures n < 10 <==> |s| == 1
  {
    if n < 10 then [Digit(n)] else DecimalString(n / 10) + [Digit(n % 10)]
  }

  /** Reads a string of decimal digits back as a number. */
  function DecimalValue(s: string): nat {
    if s == [] then 0 else DecimalValue(s[..|s| - 1]) * 10 + DigitValue(s[|s| - 1])
  }

  /** Printing a quantity loses nothing: it reads back as the same number. */
  lemma {:induction false} DecimalRoundTrip(n: nat)
    ensures DecimalValue(DecimalString(n)) == n
  {
    var s := DecimalString(n);
    if n < 10 {
      assert s[..|s| - 1] == [];
    } else {
      DecimalRoundTrip(n / 10);
      assert s[..|s| - 1] == DecimalString(n / 10);
    }
  }

  /** `Venda de ${units}x ${name}`. */
  function SaleDescription(units: nat, name: string): string {
    SALE_PREFIX + " " + DecimalString(units) + "x " + name
  }

  /** `Custo dos produtos vendidos (${name})`. */
  function CostOfSalesDescription(name: string): string {
    "Custo dos produtos vendidos (" + name + ")"
  }

  /** `Compra de ${quantity}x ${name}`. */
  function PurchaseDescription(quantity: nat, name: string): string {
    "Compra de " + DecimalString(quantity) + "x " + name
  }

  /** A sale description begins with the prefix the chart filters on; a purchase one does not. */
  lemma DescriptionPrefixes(units: nat, quantity: nat, name: string)
    ensures SALE_PREFIX <= SaleDescription(units, name)
    ensures !(SALE_PREFIX <= PurchaseDescription(quantity, name))
    ensures !(SALE_PREFIX <= CAPITAL_DESCRIPTION)
  {
    var s := SaleDescription(units, name);
    assert s == SALE_PREFIX + (" " + DecimalString(units) + "x " + name);
    assert PurchaseDescription(quantity, name)[0] == 'C';
    assert CAPITAL_DESCRIPTION[0] == 'C';
  }
}
