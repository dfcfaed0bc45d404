/**
 * The debt ledger of the debts page: debtors (customers and suppliers), their
 * transactions, the balance fold, the receivables/payables totals, the search
 * filter, and the page state that `handleAddDebtor` appends to.
 */
module Debts {
  import opened Wrappers
  import opened Text
  import opened Seqs

  datatype Role = Customer | Supplier

  /** A transaction's `type`: a debt raises what is owed, a payment settles it. */
  datatype Kind = Debt | Payment

  /** `balance` is positive when a customer owes the business, negative when the business owes a supplier. */
  datatype Debtor = Debtor(id: string, name: string, role: Role, balance: real, phone: Option<string>)

  /** `amount` is a magnitude; its sign comes from the debtor's role and the kind. `date` is a timestamp. */
  datatype DebtTransaction = DebtTransaction(
    id: string, debtorId: string, date: int, description: string, amount: real, kind: Kind)

  /** The step of the balance `reduce`: what one transaction adds to a debtor's balance. */
  function Effect(role: Role, t: DebtTransaction): real {
    match role
    case Customer => if t.kind == Debt then t.amount else -t.amount
    case Supplier => if t.kind == Debt then -t.amount else t.amount
  }

  function EffectOf(role: Role): DebtTransaction -> real {
    (t: DebtTransaction) => Effect(role, t)
  }

  function IsFor(debtorId: string): DebtTransaction -> bool {
    (t: DebtTransaction) => t.debtorId == debtorId
  }

  /** `calculateBalance`: the signed sum of the transactions whose `debtorId` is the debtor's id. */
  function Balance(debtorId: string, txs: seq<DebtTransaction>, role: Role): real {
    SumOf(Filter(txs, IsFor(debtorId)), EffectOf(role))
  }

  /**
   * The sign convention, one transaction at a time: for a customer a debt adds its
   * amount and a payment subtracts it; for a supplier a debt subtracts and a payment
   * adds; a transaction of another debtor changes nothing.
   */
  lemma BalanceAppend(debtorId: string, txs: seq<DebtTransaction>, t: DebtTransaction, role: Role)
    ensures t.debtorId != debtorId ==> Balance(debtorId, txs + [t], role) == Balance(debtorId, txs, role)
    ensures t.debtorId == debtorId && role == Customer && t.kind == Debt ==>
      Balance(debtorId, txs + [t], role) == Balance(debtorId, txs, role) + t.amount
    ensures t.debtorId == debtorId && role == Customer && t.kind == Payment ==>
      Balance(debtorId, txs + [t], role) == Balance(debtorId, txs, role) - t.amount
    ensures t.debtorId == debtorId && role == Supplier && t.kind == Debt ==>
      Balance(debtorId, txs + [t], role) == Balance(debtorId, txs, role) - t.amount
    ensures t.debtorId == debtorId && role == Supplier && t.kind == Payment ==>
      Balance(debtorId, txs + [t], role) == Balance(debtorId, txs, role) + t.amount
  {
    var p, f := IsFor(debtorId), EffectOf(role);
    FilterConcat(txs, [t], p);
    assert Filter([t], p) == if p(t) then [t] else [];
    SumOfConcat(Filter(txs, p), Filter([t], p), f);
  }

  /** A debtor none of whose transactions are in the log has balance 0. */
  lemma BalanceWithoutTransactions(debtorId: string, txs: seq<DebtTransaction>, role: Role)
    requires forall t :: t in txs ==> t.debtorId != debtorId
    ensures Balance(debtorId, txs, role) == 0.0
  {
  }

  /** A transaction's effect on a given debtor, 0 when it belongs to another one. */
  function MaskedEffect(debtorId: string, role: Role): DebtTransaction -> real {
    (t: DebtTransaction) => if t.debtorId == debtorId then Effect(role, t) else 0.0
  }

  lemma BalanceAsMaskedSum(debtorId: string, txs: seq<DebtTransaction>, role: Role)
    ensures Balance(debtorId, txs, role) == SumOf(txs, MaskedEffect(debtorId, role))
  {
    SumOfFilter(txs, IsFor(debtorId), EffectOf(role), MaskedEffect(debtorId, role));
  }

  /** The balance is the same for every ordering of the transaction log. */
  lemma BalancePermutation(debtorId: string, a: seq<DebtTransaction>, b: seq<DebtTransaction>, role: Role)
    requires multiset(a) == multiset(b)
    ensures Balance(debtorId, a, role) == Balance(debtorId, b, role)
  {
    BalanceAsMaskedSum(debtorId, a, role);
    BalanceAsMaskedSum(debtorId, b, role);
    SumOfPermutation(a, b, MaskedEffect(debtorId, role));
  }

  lemma {:induction false} SupplierSumIsNegated(rel: seq<DebtTransaction>)
    ensures SumOf(rel, EffectOf(Supplier)) == -SumOf(rel, EffectOf(Customer))
  {
    if rel != [] {
      SupplierSumIsNegated(rel[1..]);
    }
  }

  /** The same transactions give a supplier exactly the opposite balance of a customer. */
  lemma SupplierMirrorsCustomer(debtorId: string, txs: seq<DebtTransaction>)
    ensures Balance(debtorId, txs, Supplier) == -Balance(debtorId, txs, Customer)
  {
    SupplierSumIsNegated(Filter(txs, IsFor(debtorId)));
  }

  /**
   * The balance-recomputing `map` (run on load and whenever the transactions change):
   * every debtor keeps its other fields, in place, and gets the balance of the log.
   */
  function WithBalances(debtors: seq<Debtor>, txs: seq<DebtTransaction>): (r: seq<Debtor>)
    ensures |r| == |debtors|
    ensures forall i :: 0 <= i < |r| ==>
      r[i].id == debtors[i].id && r[i].name == debtors[i].name && r[i].role == debtors[i].role &&
      r[i].phone == debtors[i].phone && r[i].balance == Balance(debtors[i].id, txs, debtors[i].role)
  {
    seq(|debtors|, i requires 0 <= i < |debtors| => debtors[i].(balance := Balance(debtors[i].id, txs, debtors[i].role)))
  }

  /** Recomputing twice gives what recomputing once gives: stored balances are never an input. */
  lemma WithBalancesIdempotent(debtors: seq<Debtor>, txs: seq<DebtTransaction>)
    ensures WithBalances(WithBalances(debtors, txs), txs) == WithBalances(debtors, txs)
  {
  }

  predicate Receivable(d: Debtor) {
    d.role == Customer && d.balance > 0.0
  }

  predicate Payable(d: Debtor) {
    d.role == Supplier && d.balance < 0.0
  }

  function BalanceOf(d: Debtor): real {
    d.balance
  }

  /** `Math.abs(d.balance)`. */
  function AbsBalanceOf(d: Debtor): real {
    if d.balance < 0.0 then -d.balance else d.balance
  }

  /** `totalReceivables`: what customers with a positive balance owe, in total. */
  function TotalReceivables(debtors: seq<Debtor>): (r: real)
    ensures r >= 0.0
  {
    var owing := Filter(debtors, Receivable);
    SumOfNonNegative(owing, BalanceOf);
    SumOf(owing, BalanceOf)
  }

  /** `totalPayables`: what is owed to suppliers with a negative balance, as a magnitude. */
  function TotalPayables(debtors: seq<Debtor>): (r: real)
    ensures r >= 0.0
  {
    var owed := Filter(debtors, Payable);
    SumOfNonNegative(owed, AbsBalanceOf);
    SumOf(owed, AbsBalanceOf)
  }

  /**
   * One more debtor adds its positive customer balance to the receivables and the
   * magnitude of its negative supplier balance to the payables, and nothing otherwise.
   */
  lemma TotalsAppend(debtors: seq<Debtor>, d: Debtor)
    ensures TotalReceivables(debtors + [d]) == TotalReceivables(debtors) + (if Receivable(d) then d.balance else 0.0)
    ensures TotalPayables(debtors + [d]) == TotalPayables(debtors) + (if Payable(d) then -d.balance else 0.0)
  {
    FilterConcat(debtors, [d], Receivable);
    assert Filter([d], Receivable) == if Receivable(d) then [d] else [];
    SumOfConcat(Filter(debtors, Receivable), Filter([d], Receivable), BalanceOf);
    FilterConcat(debtors, [d], Payable);
    assert Filter([d], Payable) == if Payable(d) then [d] else [];
    SumOfConcat(Filter(debtors, Payable), Filter([d], Payable), AbsBalanceOf);
  }

  /** The search predicate, given the already lower-cased term. An empty phone never matches. */
  predicate MatchesSearch(d: Debtor, lowerTerm: string) {
    Includes(Lower(d.name), lowerTerm) || (d.phone.Some? && d.phone.value != "" && Includes(d.phone.value, lowerTerm))
  }

  function SearchWith(lowerTerm: string): Debtor -> bool {
    (d: Debtor) => MatchesSearch(d, lowerTerm)
  }

  /**
   * The filtered list: the debtors, in their order, whose lower-cased name contains the
   * lower-cased term or whose (non-empty) phone contains it.
   */
  function SearchDebtors(debtors: seq<Debtor>, term: string): (r: seq<Debtor>)
    ensures |r| <= |debtors|
    ensures forall d :: d in r <==>
      d in debtors &&
      (Includes(Lower(d.name), Lower(term)) || (d.phone.Some? && d.phone.value != "" && Includes(d.phone.value, Lower(term))))
  {
    Filter(debtors, SearchWith(Lower(term)))
  }

  /** An empty search term lists every debtor. */
  lemma SearchEmptyTermKeepsAll(debtors: seq<Debtor>)
    ensures SearchDebtors(debtors, "") == debtors
  {
    forall d | d in debtors
      ensures SearchWith(Lower(""))(d)
    {
      IncludesEmpty(Lower(d.name));
    }
    FilterKeepsAll(debtors, SearchWith(Lower("")));
  }

  /** `debtors.some(d => d.name.toLowerCase() === name.toLowerCase())`. */
  predicate NameTaken(debtors: seq<Debtor>, name: string) {
    exists i :: 0 <= i < |debtors| && Lower(debtors[i].name) == Lower(name)
  }

  /** No two debtors have names that are equal ignoring case. */
  ghost predicate NamesDistinct(debtors: seq<Debtor>) {
    forall i, j :: 0 <= i < j < |debtors| ==> Lower(debtors[i].name) != Lower(debtors[j].name)
  }

  datatype AddDebtorOutcome = DebtorAdded | EmptyName | DuplicateName

  datatype AddDebtorResult = AddDebtorResult(outcome: AddDebtorOutcome, debtors: seq<Debtor>)

  /** The debtor the form describes: trimmed name, balance 0, and the trimmed phone unless it is blank. */
  function NewDebtor(nameInput: string, role: Role, phoneInput: string, newId: string): (d: Debtor)
    ensures d.id == newId && d.name == Trim(nameInput) && d.role == role && d.balance == 0.0
    ensures d.phone.None? <==> AllSpace(phoneInput)
    ensures d.phone.Some? ==> d.phone.value == Trim(phoneInput)
  {
    var phone := Trim(phoneInput);
    Debtor(newId, Trim(nameInput), role, 0.0, if phone == "" then None else Some(phone))
  }

  /**
   * What `handleAddDebtor` does to the list: a blank name is refused, a name already
   * present ignoring case is refused, and otherwise the new debtor is appended.
   */
  function AddToDebtors(debtors: seq<Debtor>, nameInput: string, role: Role, phoneInput: string, newId: string)
    : (r: AddDebtorResult)
    ensures r.outcome == EmptyName <==> AllSpace(nameInput)
    ensures r.outcome == DuplicateName <==> !AllSpace(nameInput) && NameTaken(debtors, Trim(nameInput))
    ensures r.outcome != DebtorAdded ==> r.debtors == debtors
    ensures r.outcome == DebtorAdded ==> r.debtors == debtors + [NewDebtor(nameInput, role, phoneInput, newId)]
  {
    var name := Trim(nameInput);
    if name == "" then AddDebtorResult(EmptyName, debtors)
    else if NameTaken(debtors, name) then AddDebtorResult(DuplicateName, debtors)
    else AddDebtorResult(DebtorAdded, debtors + [NewDebtor(nameInput, role, phoneInput, newId)])
  }

  /** Appending a debtor whose name is not taken keeps the names distinct. */
  lemma AppendKeepsNamesDistinct(debtors: seq<Debtor>, d: Debtor)
    requires NamesDistinct(debtors) && !NameTaken(debtors, d.name)
    ensures NamesDistinct(debtors + [d])
  {
    var r := debtors + [d];
    forall i, j | 0 <= i < j < |r| ensures Lower(r[i].name) != Lower(r[j].name) {
      if j == |debtors| {
        assert r[i] == debtors[i];
      } else {
        assert r[i] == debtors[i] && r[j] == debtors[j];
      }
    }
  }

  /** Adding a debtor keeps the names distinct ignoring case. */
  lemma AddDebtorKeepsNamesDistinct(debtors: seq<Debtor>, nameInput: string, role: Role, phoneInput: string, newId: string)
    requires NamesDistinct(debtors)
    ensures NamesDistinct(AddToDebtors(debtors, nameInput, role, phoneInput, newId).debtors)
  {
    if AddToDebtors(debtors, nameInput, role, phoneInput, newId).outcome == DebtorAdded {
      AppendKeepsNamesDistinct(debtors, NewDebtor(nameInput, role, phoneInput, newId));
    }
  }

  /** A new debtor starts at balance 0, so adding one changes neither total. */
  lemma AddDebtorKeepsTotals(debtors: seq<Debtor>, nameInput: string, role: Role, phoneInput: string, newId: string)
    ensures var after := AddToDebtors(debtors, nameInput, role, phoneInput, newId).debtors;
      TotalReceivables(after) == TotalReceivables(debtors) && TotalPayables(after) == TotalPayables(debtors)
  {
    TotalsAppend(debtors, NewDebtor(nameInput, role, phoneInput, newId));
  }

  /** The debts page's state: the debtors list and the transaction log. */
  class DebtsPage {
    var debtors: seq<Debtor>
    var transactions: seq<DebtTransaction>

    /** The loaded lists, with every balance recomputed from the loaded log. */
    constructor (loadedDebtors: seq<Debtor>, loadedTransactions: seq<DebtTransaction>)
      ensures debtors == WithBalances(loadedDebtors, loadedTransactions)
      ensures transactions == loadedTransactions
    {
      debtors := WithBalances(loadedDebtors, loadedTransactions);
      transactions := loadedTransactions;
    }

    /**
     * `handleAddDebtor` with the form's name, type and phone; `newId` stands for
     * the generated `debtor-<timestamp>` id.
     */
    method AddDebtor(nameInput: string, role: Role, phoneInput: string, newId: string) returns (outcome: AddDebtorOutcome)
      modifies this
      ensures AddDebtorResult(outcome, debtors) == AddToDebtors(old(debtors), nameInput, role, phoneInput, newId)
      ensures transactions == old(transactions)
    {
      var trimmedName := Trim(nameInput);
      if trimmedName == "" {
        return EmptyName;
      }
      if NameTaken(debtors, trimmedName) {
        return DuplicateName;
      }
      debtors := debtors + [NewDebtor(nameInput, role, phoneInput, newId)];
      outcome := DebtorAdded;
    }
  }
}
