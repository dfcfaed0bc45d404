/**
 * The reports page: records read back from storage without trusting their
 * field types, the defensive balance fold, debtor validation, the date-window
 * filters and the summary figures.
 */
module Reports {
  import opened Wrappers
  import opened Seqs
  import Debts

  /** A debt transaction as loaded; `date` is `None` when missing or not a valid date. */
  datatype RawTransaction = RawTransaction(
    id: string, debtorId: Dyn<string>, date: Option<int>, description: string, amount: Dyn<real>, kind: Dyn<Debts.Kind>)

  /** A debtor as loaded; `NullDebtor` is a `null` array element. */
  datatype RawDebtor =
    | NullDebtor
    | RawDebtor(id: Dyn<string>, name: string, role: Dyn<Debts.Role>, balance: real, phone: Option<string>)

  datatype RawProduct = RawProduct(id: string, barcode: string, name: string, quantity: Dyn<real>, price: Dyn<real>)

  /** An invoice line as loaded; only the fields the report reads. */
  datatype RawItem = RawItem(id: Dyn<string>, name: string, saleQuantity: Dyn<real>, salePrice: Dyn<real>)

  /** An invoice as loaded; `date` is `None` when missing or not a valid date, and `null` entries behave the same. */
  datatype RawInvoice = RawInvoice(id: string, date: Option<int>, items: Dyn<seq<RawItem>>, total: Dyn<real>)

  /** The balance step of the reports page: a non-numeric amount counts as 0, any type but 'debt' as a payment. */
  function RawEffect(role: Debts.Role, t: RawTransaction): real {
    var amount := NumberOr0(t.amount);
    match role
    case Customer => if t.kind == Typed(Debts.Debt) then amount else -amount
    case Supplier => if t.kind == Typed(Debts.Debt) then -amount else amount
  }

  function RawEffectOf(role: Debts.Role): RawTransaction -> real {
    (t: RawTransaction) => RawEffect(role, t)
  }

  function RawIsFor(debtorId: string): RawTransaction -> bool {
    (t: RawTransaction) => t.debtorId == Typed(debtorId)
  }

  /** `calculateBalance` of the reports page. */
  function Balance(debtorId: string, txs: seq<RawTransaction>, role: Debts.Role): real {
    SumOf(Filter(txs, RawIsFor(debtorId)), RawEffectOf(role))
  }

  /** A transaction whose amount is not a number leaves every balance as it was. */
  lemma NonNumericAmountCountsZero(debtorId: string, txs: seq<RawTransaction>, t: RawTransaction, role: Debts.Role)
    requires t.amount.Untyped?
    ensures Balance(debtorId, txs + [t], role) == Balance(debtorId, txs, role)
  {
    var p, f := RawIsFor(debtorId), RawEffectOf(role);
    FilterConcat(txs, [t], p);
    assert Filter([t], p) == if p(t) then [t] else [];
    SumOfConcat(Filter(txs, p), Filter([t], p), f);
  }

  /** A well-typed transaction as it reads back from storage. */
  function Stored(t: Debts.DebtTransaction): RawTransaction {
    RawTransaction(t.id, Typed(t.debtorId), Some(t.date), t.description, Typed(t.amount), Typed(t.kind))
  }

  function AllStored(txs: seq<Debts.DebtTransaction>): (r: seq<RawTransaction>)
    ensures |r| == |txs| && forall i :: 0 <= i < |txs| ==> r[i] == Stored(txs[i])
  {
    seq(|txs|, i requires 0 <= i < |txs| => Stored(txs[i]))
  }

  lemma {:induction false} MaskedSumsAgree(debtorId: string, txs: seq<Debts.DebtTransaction>, role: Debts.Role)
    ensures SumOf(Filter(AllStored(txs), RawIsFor(debtorId)), RawEffectOf(role))
         == SumOf(Filter(txs, Debts.IsFor(debtorId)), Debts.EffectOf(role))
  {
    if txs != [] {
      assert AllStored(txs)[1..] == AllStored(txs[1..]);
      MaskedSumsAgree(debtorId, txs[1..], role);
      var raw := AllStored(txs);
      SumOfConcat(if RawIsFor(debtorId)(raw[0]) then [raw[0]] else [], Filter(raw[1..], RawIsFor(debtorId)), RawEffectOf(role));
      SumOfConcat(if Debts.IsFor(debtorId)(txs[0]) then [txs[0]] else [], Filter(txs[1..], Debts.IsFor(debtorId)), Debts.EffectOf(role));
    }
  }

  /**
   * On well-typed data the reports page and the debts page compute the same balance:
   * customer debt +, customer payment -, supplier debt -, supplier payment +.
   */
  lemma BalanceMatchesLedger(debtorId: string, txs: seq<Debts.DebtTransaction>, role: Debts.Role)
    ensures Balance(debtorId, AllStored(txs), role) == Debts.Balance(debtorId, txs, role)
  {
    MaskedSumsAgree(debtorId, txs, role);
  }

  /** The debtor validation: a non-null object with a string id and type customer or supplier. */
  predicate ValidDebtor(d: RawDebtor) {
    d.RawDebtor? && d.id.Typed? && d.role.Typed?
  }

  /** A kept debtor: its own fields, with the balance recomputed from the log. */
  function Recomputed(d: RawDebtor, txs: seq<RawTransaction>): Debts.Debtor
    requires ValidDebtor(d)
  {
    Debts.Debtor(d.id.value, d.name, d.role.value, Balance(d.id.value, txs, d.role.value), d.phone)
  }

  /**
   * The `map` that turns invalid debtors into `null` and recomputes the others,
   * followed by the `filter` that drops the nulls: the valid debtors, in order,
   * each recomputed.
   */
  function ValidateDebtors(raw: seq<RawDebtor>, txs: seq<RawTransaction>): (r: seq<Debts.Debtor>)
    ensures |r| <= |raw|
    ensures forall d :: d in r ==> d.balance == Balance(d.id, txs, d.role)
  {
    if raw == [] then []
    else
      var rest := ValidateDebtors(raw[1..], txs);
      if ValidDebtor(raw[0]) then [Recomputed(raw[0], txs)] + rest else rest
  }

  /** Each of `kept` recomputed, in order; the reference the validation is measured against. */
  function RecomputeEach(kept: seq<RawDebtor>, txs: seq<RawTransaction>): (r: seq<Debts.Debtor>)
    requires forall i :: 0 <= i < |kept| ==> ValidDebtor(kept[i])
    ensures |r| == |kept|
  {
    if kept == [] then [] else [Recomputed(kept[0], txs)] + RecomputeEach(kept[1..], txs)
  }

  /**
   * Validation is the `map` to `null` followed by the `filter`: the same as keeping the
   * valid debtors, in order, and recomputing each of them.
   */
  lemma {:induction false} ValidatedAreRecomputed(raw: seq<RawDebtor>, txs: seq<RawTransaction>)
    ensures ValidateDebtors(raw, txs) == RecomputeEach(Filter(raw, ValidDebtor), txs)
  {
    if raw != [] {
      ValidatedAreRecomputed(raw[1..], txs);
      var kept := Filter(raw[1..], ValidDebtor);
      if ValidDebtor(raw[0]) {
        assert Filter(raw, ValidDebtor) == [raw[0]] + kept;
        assert ([raw[0]] + kept)[1..] == kept;
      } else {
        assert Filter(raw, ValidDebtor) == kept;
      }
    }
  }

  datatype ReportData = ReportData(
    inventory: seq<RawProduct>, sales: seq<RawInvoice>, debtors: seq<Debts.Debtor>, transactions: seq<RawTransaction>)

  /** What the page shows: the data, or the error banner with every list emptied. */
  datatype ReportState = ReportState(data: ReportData, failed: bool)

  /**
   * The loading effect, given what was read under the four storage keys: if any of
   * them is not an array the load fails and every list is empty; otherwise the lists
   * are kept and the debtors validated against the loaded log.
   */
  function LoadReport(inventory: Dyn<seq<RawProduct>>, sales: Dyn<seq<RawInvoice>>,
                      debtors: Dyn<seq<RawDebtor>>, transactions: Dyn<seq<RawTransaction>>): (s: ReportState)
    ensures s.failed <==> inventory.Untyped? || sales.Untyped? || debtors.Untyped? || transactions.Untyped?
    ensures s.failed ==> s.data == ReportData([], [], [], [])
    ensures !s.failed ==>
      s.data.inventory == inventory.value && s.data.sales == sales.value &&
      s.data.transactions == transactions.value &&
      |s.data.debtors| <= |debtors.value| &&
      forall d :: d in s.data.debtors ==> d.balance == Balance(d.id, transactions.value, d.role)
  {
    if inventory.Untyped? || sales.Untyped? || debtors.Untyped? || transactions.Untyped? then
      ReportState(ReportData([], [], [], []), true)
    else
      var kept := ValidateDebtors(debtors.value, transactions.value);
      ReportState(ReportData(inventory.value, sales.value, kept, transactions.value), false)
  }

  /** The selected period, with the month boundaries already computed as timestamps. */
  datatype Window = AllTime | Within(start: int, end: int)

  /** A record is kept when it has a valid date and, unless all time is selected, start <= date <= end. */
  predicate InWindow(date: Option<int>, w: Window) {
    date.Some? && (w.Within? ==> w.start <= date.value <= w.end)
  }

  function SaleInWindow(w: Window): RawInvoice -> bool {
    (s: RawInvoice) => InWindow(s.date, w)
  }

  function TransactionInWindow(w: Window): RawTransaction -> bool {
    (t: RawTransaction) => InWindow(t.date, w)
  }

  /** `filteredSales`: the invoices of the period, in their order. */
  function FilterSales(sales: seq<RawInvoice>, w: Window): (r: seq<RawInvoice>)
    ensures |r| <= |sales|
    ensures forall s :: s in r <==> s in sales && s.date.Some? && (w.Within? ==> w.start <= s.date.value <= w.end)
  {
    Filter(sales, SaleInWindow(w))
  }

  /** `filteredDebtTransactions`: the transactions of the period, in their order. */
  function FilterTransactions(txs: seq<RawTransaction>, w: Window): (r: seq<RawTransaction>)
    ensures |r| <= |txs|
    ensures forall t :: t in r <==> t in txs && t.date.Some? && (w.Within? ==> w.start <= t.date.value <= w.end)
  {
    Filter(txs, TransactionInWindow(w))
  }

  /** With all time selected, a list whose records all carry a valid date is kept whole. */
  lemma AllTimeKeepsDatedSales(sales: seq<RawInvoice>)
    requires forall s :: s in sales ==> s.date.Some?
    ensures FilterSales(sales, AllTime) == sales
  {
    FilterKeepsAll(sales, SaleInWindow(AllTime));
  }

  function SaleTotal(s: RawInvoice): real {
    NumberOr0(s.total)
  }

  /** `totalSalesValue`: the sum of the invoice totals, a non-numeric total counting as 0. */
  function TotalSalesValue(sales: seq<RawInvoice>): real {
    SumOf(sales, SaleTotal)
  }

  function ItemQuantity(it: RawItem): real {
    NumberOr0(it.saleQuantity)
  }

  function SoldItemsOf(s: RawInvoice): real {
    if s.items.Typed? then SumOf(s.items.value, ItemQuantity) else 0.0
  }

  /** `totalSoldItems`: the sum of the line quantities, skipping invoices whose items are not an array. */
  function TotalSoldItems(sales: seq<RawInvoice>): real {
    SumOf(sales, SoldItemsOf)
  }

  /** Recording more invoices adds their own in-period totals to the period's sales value. */
  lemma PeriodTotalsAdd(a: seq<RawInvoice>, b: seq<RawInvoice>, w: Window)
    ensures TotalSalesValue(FilterSales(a + b, w)) == TotalSalesValue(FilterSales(a, w)) + TotalSalesValue(FilterSales(b, w))
  {
    FilterConcat(a, b, SaleInWindow(w));
    SumOfConcat(FilterSales(a, w), FilterSales(b, w), SaleTotal);
  }

  /** An invoice whose items are not an array adds nothing to the number of sold items. */
  lemma UntypedItemsAddNothing(sales: seq<RawInvoice>, s: RawInvoice)
    requires s.items.Untyped?
    ensures TotalSoldItems(sales + [s]) == TotalSoldItems(sales)
  {
    SumOfConcat(sales, [s], SoldItemsOf);
  }

  /** `averageInvoiceValue`: 0 without invoices, otherwise the total divided by their number. */
  function AverageInvoiceValue(sales: seq<RawInvoice>): (r: real)
    ensures |sales| == 0 ==> r == 0.0
    ensures |sales| > 0 ==> r * (|sales| as real) == TotalSalesValue(sales)
  {
    if |sales| > 0 then TotalSalesValue(sales) / (|sales| as real) else 0.0
  }

  lemma {:induction false} SumOfBounds<T>(s: seq<T>, f: T -> real, lo: real, hi: real)
    requires forall x :: x in s ==> lo <= f(x) <= hi
    ensures (|s| as real) * lo <= SumOf(s, f) <= (|s| as real) * hi
  {
    if s != [] {
      SumOfBounds(s[1..], f, lo, hi);
    }
  }

  /** The average invoice value lies between the smallest and the largest invoice total. */
  lemma {:induction false} AverageWithinTotals(sales: seq<RawInvoice>, lo: real, hi: real)
    requires |sales| > 0
    requires forall s :: s in sales ==> lo <= SaleTotal(s) <= hi
    ensures lo <= AverageInvoiceValue(sales) <= hi
  {
    SumOfBounds(sales, SaleTotal, lo, hi);
    var n := |sales| as real;
    var avg := AverageInvoiceValue(sales);
    assert avg * n == TotalSalesValue(sales);
    ScaledBounds(n, lo, avg, hi);
  }

  lemma ScaledBounds(n: real, lo: real, x: real, hi: real)
    requires n > 0.0 && n * lo <= x * n <= n * hi
    ensures lo <= x <= hi
  {
  }

  function ProductValue(p: RawProduct): real {
    NumberOr0(p.quantity) * NumberOr0(p.price)
  }

  /** `totalInventoryValue`: the sum of quantity times price, a non-numeric quantity or price counting as 0. */
  function TotalInventoryValue(inventory: seq<RawProduct>): real {
    SumOf(inventory, ProductValue)
  }

  /** With non-negative quantities and prices the inventory value is non-negative. */
  lemma {:induction false} TotalInventoryValueNonNegative(inventory: seq<RawProduct>)
    requires forall p :: p in inventory ==> NumberOr0(p.quantity) >= 0.0 && NumberOr0(p.price) >= 0.0
    ensures TotalInventoryValue(inventory) >= 0.0
  {
    SumOfNonNegative(inventory, ProductValue);
  }

  /** A product whose quantity or price is not a number adds nothing to the inventory value. */
  lemma UntypedProductAddsNothing(inventory: seq<RawProduct>, p: RawProduct)
    requires p.quantity.Untyped? || p.price.Untyped?
    ensures TotalInventoryValue(inventory + [p]) == TotalInventoryValue(inventory)
  {
    SumOfConcat(inventory, [p], ProductValue);
  }

  function ProductQuantity(p: RawProduct): real {
    NumberOr0(p.quantity)
  }

  /** `totalInventoryItems`: the sum of the quantities, a non-numeric one counting as 0. */
  function TotalInventoryItems(inventory: seq<RawProduct>): real {
    SumOf(inventory, ProductQuantity)
  }

  /** One more product adds its quantity when that is a number, and nothing otherwise. */
  lemma {:induction false} InventoryItemsAppend(inventory: seq<RawProduct>, p: RawProduct)
    ensures TotalInventoryItems(inventory + [p]) ==
      TotalInventoryItems(inventory) + (if p.quantity.Typed? then p.quantity.value else 0.0)
  {
    SumOfConcat(inventory, [p], ProductQuantity);
    SumOfSingleton(p, ProductQuantity);
  }

  /** With non-negative numeric quantities the item count is non-negative. */
  lemma {:induction false} TotalInventoryItemsNonNegative(inventory: seq<RawProduct>)
    requires forall p :: p in inventory ==> NumberOr0(p.quantity) >= 0.0
    ensures TotalInventoryItems(inventory) >= 0.0
  {
    SumOfNonNegative(inventory, ProductQuantity);
  }

  /** `netDebtPosition`: receivables minus payables. */
  function NetDebtPosition(debtors: seq<Debts.Debtor>): real {
    Debts.TotalReceivables(debtors) - Debts.TotalPayables(debtors)
  }

  /** What one debtor adds to the net position: its balance when it is owed to or by the business, else 0. */
  function NetContribution(d: Debts.Debtor): real {
    if Debts.Receivable(d) || Debts.Payable(d) then d.balance else 0.0
  }

  /**
   * The net position sums, debtor by debtor, the positive customer balances and the
   * negative supplier balances; a customer in credit or a supplier in credit adds nothing.
   */
  lemma {:induction false} NetPositionPerDebtor(debtors: seq<Debts.Debtor>)
    ensures NetDebtPosition(debtors) == SumOf(debtors, NetContribution)
    decreases |debtors|
  {
    if debtors != [] {
      var init, last := debtors[..|debtors| - 1], debtors[|debtors| - 1];
      assert debtors == init + [last];
      NetPositionPerDebtor(init);
      Debts.TotalsAppend(init, last);
      SumOfLast(debtors, NetContribution);
    }
  }
}
