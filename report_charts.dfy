/**
 * The two chart series of the reports page that are built by accumulating into a
 * `Map` inside `forEach` loops: sales per day and the five best-selling products.
 */
module ReportCharts {
  import opened Wrappers
  import opened Seqs
  import opened Reports

  /** One bar of the best-sellers chart. */
  datatype ProductSales = ProductSales(name: string, quantity: real, value: real)

  /** The `Map` being filled: its entries and the order in which the keys were first set. */
  datatype Tally = Tally(entries: map<string, ProductSales>, order: seq<string>)

  /** An item is counted when its id is a string and its quantity and sale price are numbers. */
  predicate ValidItem(it: RawItem) {
    it.id.Typed? && it.saleQuantity.Typed? && it.salePrice.Typed?
  }

  /** The name shown for a product: the item's name, or "منتج (<id>)" when it has none. */
  function DisplayName(it: RawItem): string
    requires it.id.Typed?
  {
    if it.name != "" then it.name else "منتج (" + it.id.value + ")"
  }

  function ItemValue(it: RawItem): real
    requires ValidItem(it)
  {
    it.saleQuantity.value * it.salePrice.value
  }

  /** The body of the inner `forEach`: add to the product's entry, or create it. */
  function Step(t: Tally, it: RawItem): Tally {
    if !ValidItem(it) then t
    else
      var id := it.id.value;
      if id in t.entries then
        var e := t.entries[id];
        Tally(t.entries[id := e.(quantity := e.quantity + it.saleQuantity.value, value := e.value + ItemValue(it))], t.order)
      else
        Tally(t.entries[id := ProductSales(DisplayName(it), it.saleQuantity.value, ItemValue(it))], t.order + [id])
  }

  /** The `Map` after visiting the items in order; every key in the insertion order has an entry. */
  function Tallied(items: seq<RawItem>): (t: Tally)
    ensures forall id :: id in t.order <==> id in t.entries
  {
    if items == [] then Tally(map[], []) else Step(Tallied(items[..|items| - 1]), items[|items| - 1])
  }

  /** The items the loops visit: those of every invoice whose `items` is an array. */
  function ItemsOf(s: RawInvoice): seq<RawItem> {
    if s.items.Typed? then s.items.value else []
  }

  function AllItems(sales: seq<RawInvoice>): seq<RawItem> {
    if sales == [] then [] else AllItems(sales[..|sales| - 1]) + ItemsOf(sales[|sales| - 1])
  }

  function CountedFor(id: string): RawItem -> bool {
    (it: RawItem) => ValidItem(it) && it.id.value == id
  }

  function CountedQuantity(it: RawItem): real {
    if ValidItem(it) then it.saleQuantity.value else 0.0
  }

  function CountedValue(it: RawItem): real {
    if ValidItem(it) then ItemValue(it) else 0.0
  }

  /** The summed quantity of the counted items of one product. */
  function QuantityFor(items: seq<RawItem>, id: string): real {
    SumOf(Filter(items, CountedFor(id)), CountedQuantity)
  }

  /** The summed `saleQuantity * salePrice` of the counted items of one product. */
  function ValueFor(items: seq<RawItem>, id: string): real {
    SumOf(Filter(items, CountedFor(id)), CountedValue)
  }

  ghost predicate TallyOf(t: Tally, items: seq<RawItem>) {
    && (forall id :: id in t.entries <==> id in t.order)
    && (forall i, j :: 0 <= i < j < |t.order| ==> t.order[i] != t.order[j])
    && (forall id :: id in t.entries ==>
          t.entries[id].quantity == QuantityFor(items, id) && t.entries[id].value == ValueFor(items, id))
    && (forall id :: id !in t.entries ==> Filter(items, CountedFor(id)) == [])
  }

  /** How one more item changes the per-product sums. */
  lemma CountsAppend(items: seq<RawItem>, x: RawItem, id: string)
    ensures Filter(items + [x], CountedFor(id)) == Filter(items, CountedFor(id)) + (if CountedFor(id)(x) then [x] else [])
    ensures QuantityFor(items + [x], id) == QuantityFor(items, id) + (if CountedFor(id)(x) then CountedQuantity(x) else 0.0)
    ensures ValueFor(items + [x], id) == ValueFor(items, id) + (if CountedFor(id)(x) then CountedValue(x) else 0.0)
  {
    FilterConcat(items, [x], CountedFor(id));
    assert Filter([x], CountedFor(id)) == if CountedFor(id)(x) then [x] else [];
    SumOfConcat(Filter(items, CountedFor(id)), Filter([x], CountedFor(id)), CountedQuantity);
    SumOfConcat(Filter(items, CountedFor(id)), Filter([x], CountedFor(id)), CountedValue);
  }

  /** One step keeps the keys and the insertion order in step, without repetition. */
  lemma StepKeepsOrder(t: Tally, x: RawItem)
    requires forall id :: id in t.entries <==> id in t.order
    requires forall i, j :: 0 <= i < j < |t.order| ==> t.order[i] != t.order[j]
    ensures forall id :: id in Step(t, x).entries <==> id in Step(t, x).order
    ensures forall i, j :: 0 <= i < j < |Step(t, x).order| ==> Step(t, x).order[i] != Step(t, x).order[j]
  {
    var t' := Step(t, x);
    if ValidItem(x) && x.id.value !in t.entries {
      forall i, j | 0 <= i < j < |t'.order|
        ensures t'.order[i] != t'.order[j]
      {
        if j == |t.order| {
          assert t.order[i] in t.order;
        }
      }
    }
  }

  /** A step for an item not counted towards `id` leaves the entry of `id` alone. */
  lemma StepElsewhere(t: Tally, x: RawItem, id: string)
    requires !CountedFor(id)(x)
    ensures id in Step(t, x).entries <==> id in t.entries
    ensures id in t.entries ==> Step(t, x).entries[id] == t.entries[id]
  {
  }

  /** A step for an item counted towards `id` adds to its entry, or creates it. */
  lemma StepHere(t: Tally, x: RawItem, id: string)
    requires CountedFor(id)(x)
    ensures id in Step(t, x).entries
    ensures id in t.entries ==> Step(t, x).entries[id].quantity == t.entries[id].quantity + CountedQuantity(x)
    ensures id in t.entries ==> Step(t, x).entries[id].value == t.entries[id].value + CountedValue(x)
    ensures id !in t.entries ==> Step(t, x).entries[id].quantity == CountedQuantity(x)
    ensures id !in t.entries ==> Step(t, x).entries[id].value == CountedValue(x)
  {
  }

  /** One step keeps the entry of every product id equal to that product's sums. */
  lemma StepKeepsSums(t: Tally, items: seq<RawItem>, x: RawItem, id: string)
    requires id in t.entries ==> t.entries[id].quantity == QuantityFor(items, id) && t.entries[id].value == ValueFor(items, id)
    requires id !in t.entries ==> Filter(items, CountedFor(id)) == []
    ensures id in Step(t, x).entries ==>
      Step(t, x).entries[id].quantity == QuantityFor(items + [x], id) &&
      Step(t, x).entries[id].value == ValueFor(items + [x], id)
    ensures id !in Step(t, x).entries ==> Filter(items + [x], CountedFor(id)) == []
  {
    CountsAppend(items, x, id);
    if !CountedFor(id)(x) {
      StepElsewhere(t, x, id);
    } else {
      StepHere(t, x, id);
      if id !in t.entries {
        assert QuantityFor(items, id) == 0.0 && ValueFor(items, id) == 0.0;
      }
    }
  }

  lemma StepKeepsTally(t: Tally, items: seq<RawItem>, x: RawItem)
    requires TallyOf(t, items)
    ensures TallyOf(Step(t, x), items + [x])
  {
    StepKeepsOrder(t, x);
    forall id
      ensures id in Step(t, x).entries ==>
        Step(t, x).entries[id].quantity == QuantityFor(items + [x], id) &&
        Step(t, x).entries[id].value == ValueFor(items + [x], id)
      ensures id !in Step(t, x).entries ==> Filter(items + [x], CountedFor(id)) == []
    {
      StepKeepsSums(t, items, x, id);
    }
  }

  /**
   * The `Map` has one entry per product id among the counted items, its keys without
   * repetition, each holding that product's summed quantity and summed value; their
   * order is stated by `TalliedInFirstSeenOrder`.
   */
  lemma {:induction false} TalliedIsTally(items: seq<RawItem>)
    ensures TallyOf(Tallied(items), items)
    decreases |items|
  {
    if items == [] {
    } else {
      var init, x := items[..|items| - 1], items[|items| - 1];
      assert items == init + [x];
      TalliedIsTally(init);
      StepKeepsTally(Tallied(init), init, x);
    }
  }

  /** The index of the first item counted towards `id`, or -1 when there is none. */
  function FirstCounted(items: seq<RawItem>, id: string): int {
    FindIndex(items, CountedFor(id))
  }

  /**
   * Keys in first-seen order: each listed id has a counted item, an id listed earlier
   * was first counted earlier, and no unlisted id has a counted item.
   */
  ghost predicate FirstSeen(order: seq<string>, items: seq<RawItem>) {
    && (forall k :: 0 <= k < |order| ==> 0 <= FirstCounted(items, order[k]))
    && (forall i, j :: 0 <= i < j < |order| ==> FirstCounted(items, order[i]) < FirstCounted(items, order[j]))
    && (forall id :: id !in order ==> FirstCounted(items, id) == -1)
  }

  /** One more item leaves an id's first counted index alone, or makes it the new item's. */
  lemma FirstCountedAppend(items: seq<RawItem>, x: RawItem, id: string)
    ensures FirstCounted(items + [x], id) ==
      if FirstCounted(items, id) >= 0 then FirstCounted(items, id) else if CountedFor(id)(x) then |items| else -1
  {
    FindIndexAppend(items, x, CountedFor(id));
  }

  lemma FirstCountedKept(items: seq<RawItem>, x: RawItem, id: string)
    requires FirstCounted(items, id) >= 0
    ensures FirstCounted(items + [x], id) == FirstCounted(items, id) < |items|
  {
    FirstCountedAppend(items, x, id);
  }

  lemma FirstCountedNone(items: seq<RawItem>, x: RawItem, id: string)
    requires FirstCounted(items, id) == -1 && !(ValidItem(x) && x.id.value == id)
    ensures FirstCounted(items + [x], id) == -1
  {
    FirstCountedAppend(items, x, id);
  }

  /** An item of an id already listed, or one that is not counted, keeps the order as it is. */
  lemma {:induction false} SeenItemKeepsFirstSeen(order: seq<string>, items: seq<RawItem>, x: RawItem)
    requires FirstSeen(order, items)
    requires ValidItem(x) ==> x.id.value in order
    ensures FirstSeen(order, items + [x])
  {
    forall k | 0 <= k < |order|
      ensures FirstCounted(items + [x], order[k]) == FirstCounted(items, order[k])
    {
      FirstCountedKept(items, x, order[k]);
    }
    forall id | id !in order
      ensures FirstCounted(items + [x], id) == -1
    {
      FirstCountedNone(items, x, id);
    }
  }

  /** The first item of a new id puts that id last, first counted at the new item. */
  lemma {:induction false} NewItemKeepsFirstSeen(order: seq<string>, items: seq<RawItem>, x: RawItem)
    requires FirstSeen(order, items)
    requires ValidItem(x) && x.id.value !in order
    ensures FirstSeen(order + [x.id.value], items + [x])
  {
    var order', items', id := order + [x.id.value], items + [x], x.id.value;
    FirstCountedAppend(items, x, id);
    assert FirstCounted(items', id) == |items|;
    forall k | 0 <= k < |order'|
      ensures 0 <= FirstCounted(items', order'[k]) <= |items|
      ensures k < |order| ==> FirstCounted(items', order'[k]) == FirstCounted(items, order[k]) < |items|
    {
      if k < |order| {
        assert order'[k] == order[k];
        FirstCountedKept(items, x, order[k]);
      }
    }
    forall i, j | 0 <= i < j < |order'|
      ensures FirstCounted(items', order'[i]) < FirstCounted(items', order'[j])
    {
    }
    forall other | other !in order'
      ensures FirstCounted(items', other) == -1
    {
      FirstCountedNone(items, x, other);
    }
  }

  /** One step keeps the keys in first-seen order: a new id is first counted at the new item. */
  lemma {:induction false} StepKeepsFirstSeen(t: Tally, items: seq<RawItem>, x: RawItem)
    requires forall id :: id in t.entries <==> id in t.order
    requires FirstSeen(t.order, items)
    ensures FirstSeen(Step(t, x).order, items + [x])
  {
    if ValidItem(x) && x.id.value !in t.entries {
      assert Step(t, x).order == t.order + [x.id.value];
      NewItemKeepsFirstSeen(t.order, items, x);
    } else {
      assert Step(t, x).order == t.order;
      SeenItemKeepsFirstSeen(t.order, items, x);
    }
  }

  /** `TalliedIsTally`'s companion: the keys of the `Map` come in first-seen order. */
  lemma {:induction false} TalliedInFirstSeenOrder(items: seq<RawItem>)
    ensures FirstSeen(Tallied(items).order, items)
    decreases |items|
  {
    if items == [] {
    } else {
      var init, x := items[..|items| - 1], items[|items| - 1];
      assert items == init + [x];
      TalliedInFirstSeenOrder(init);
      StepKeepsFirstSeen(Tallied(init), init, x);
    }
  }

  /** The tallied entries in `Map` insertion order, as `Array.from(productSales.values())` lists them. */
  function Values(t: Tally): (r: seq<ProductSales>)
    requires forall id :: id in t.order ==> id in t.entries
    ensures |r| == |t.order| && forall k :: 0 <= k < |r| ==> r[k] == t.entries[t.order[k]]
  {
    seq(|t.order|, k requires 0 <= k < |t.order| => t.entries[t.order[k]])
  }

  ghost predicate SortedByValue(s: seq<ProductSales>) {
    forall i, j :: 0 <= i < j < |s| ==> s[i].value >= s[j].value
  }

  /** Puts `x` before the first entry of no greater value, so that equal values keep their order. */
  function Insert(x: ProductSales, s: seq<ProductSales>): (r: seq<ProductSales>)
    ensures |r| == |s| + 1
  {
    if s == [] || s[0].value <= x.value then [x] + s else [s[0]] + Insert(x, s[1..])
  }

  /** Inserting into a sorted list keeps it sorted, and the head is either `x` or the old head. */
  lemma {:induction false} InsertSorted(x: ProductSales, s: seq<ProductSales>)
    requires SortedByValue(s)
    ensures SortedByValue(Insert(x, s))
    ensures Insert(x, s)[0] == x || (s != [] && Insert(x, s)[0] == s[0])
  {
    if s == [] || s[0].value <= x.value {
      ConsSorted(x, s);
    } else {
      var rest := Insert(x, s[1..]);
      assert SortedByValue(s[1..]);
      InsertSorted(x, s[1..]);
      assert rest[0] == x || rest[0] == s[1];
      ConsSorted(s[0], rest);
    }
  }

  /** Inserting adds exactly one copy of `x` and loses nothing. */
  lemma {:induction false} InsertMultiset(x: ProductSales, s: seq<ProductSales>)
    ensures multiset(Insert(x, s)) == multiset(s) + multiset{x}
  {
    if s != [] && s[0].value > x.value {
      InsertMultiset(x, s[1..]);
      assert s == [s[0]] + s[1..];
    }
  }

  /** The stable sort by value, largest first (`sort((a, b) => b.value - a.value)`). */
  function SortByValue(s: seq<ProductSales>): (r: seq<ProductSales>)
    ensures |r| == |s|
    ensures SortedByValue(r)
    ensures multiset(r) == multiset(s)
  {
    if s == [] then []
    else
      var rest := SortByValue(s[1..]);
      InsertSorted(s[0], rest);
      InsertMultiset(s[0], rest);
      assert s == [s[0]] + s[1..];
      Insert(s[0], rest)
  }

  /** An entry worth at least the head of a sorted list can go in front of it. */
  lemma ConsSorted(x: ProductSales, s: seq<ProductSales>)
    requires SortedByValue(s) && (s != [] ==> s[0].value <= x.value)
    ensures SortedByValue([x] + s)
  {
    var r := [x] + s;
    forall i, j | 0 <= i < j < |r| ensures r[i].value >= r[j].value {
      if i == 0 {
        assert r[j] == s[j - 1];
        assert s[0].value >= s[j - 1].value;
      } else {
        assert r[i] == s[i - 1] && r[j] == s[j - 1];
      }
    }
  }

  /** The first `n` entries of a list sorted by value are at least as large as every later one. */
  lemma SortedPrefixDominates(sorted: seq<ProductSales>, n: nat, y: ProductSales)
    requires SortedByValue(sorted) && n <= |sorted|
    requires y in sorted && y !in sorted[..n]
    ensures forall x :: x in sorted[..n] ==> y.value <= x.value
  {
    var j :| 0 <= j < |sorted| && sorted[j] == y;
    forall x | x in sorted[..n] ensures y.value <= x.value {
      var i :| 0 <= i < n && sorted[..n][i] == x;
    }
  }

  /** The facts about a prefix of a sorted arrangement of `values` that the best-sellers list relies on. */
  lemma SortedPrefix(values: seq<ProductSales>, sorted: seq<ProductSales>, n: nat)
    requires SortedByValue(sorted) && multiset(sorted) == multiset(values) && n <= |sorted|
    ensures SortedByValue(sorted[..n])
    ensures multiset(sorted[..n]) <= multiset(values)
    ensures forall x :: x in sorted[..n] ==> x in values
    ensures forall y, x :: y in values && y !in sorted[..n] && x in sorted[..n] ==> y.value <= x.value
  {
    assert sorted == sorted[..n] + sorted[n..];
    forall x | x in sorted[..n] ensures x in values {
      assert x in sorted;
      assert x in multiset(sorted);
    }
    forall y, x | y in values && y !in sorted[..n] && x in sorted[..n]
      ensures y.value <= x.value
    {
      assert y in multiset(values);
      SortedPrefixDominates(sorted, n, y);
    }
  }

  /**
   * The first five entries of the sorted list (`slice(0, 5)`): five, or all when there
   * are fewer, largest value first, taken from `values` without repeating any, and every entry that is not
   * listed is worth no more than each listed one.
   */
  function TopFive(values: seq<ProductSales>): (r: seq<ProductSales>)
    ensures |r| == if |values| < 5 then |values| else 5
    ensures SortedByValue(r)
    ensures multiset(r) <= multiset(values)
    ensures forall x :: x in r ==> x in values
    ensures forall y, x :: y in values && y !in r && x in r ==> y.value <= x.value
  {
    var sorted := SortByValue(values);
    var n := if |sorted| < 5 then |sorted| else 5;
    SortedPrefix(values, sorted, n);
    sorted[..n]
  }

  lemma TalliedSnoc(items: seq<RawItem>, x: RawItem)
    ensures Tallied(items + [x]) == Step(Tallied(items), x)
  {
    assert (items + [x])[..|items + [x]| - 1] == items;
  }

  /** The inner loop's step: one more item of the current invoice is one more `Step`. */
  lemma TalliedPrefixStep(seen: seq<RawItem>, items: seq<RawItem>, j: nat)
    requires j < |items|
    ensures Tallied(seen + items[..j + 1]) == Step(Tallied(seen + items[..j]), items[j])
  {
    assert seen + items[..j + 1] == (seen + items[..j]) + [items[j]];
    TalliedSnoc(seen + items[..j], items[j]);
  }

  lemma AllItemsSnoc(sales: seq<RawInvoice>, i: nat)
    requires i < |sales|
    ensures AllItems(sales[..i + 1]) == AllItems(sales[..i]) + ItemsOf(sales[i])
  {
    assert sales[..i + 1][..i] == sales[..i];
  }

  /** Each listed entry is the summed entry of one product of the tallied items. */
  lemma TopFiveEntries(items: seq<RawItem>)
    ensures forall e :: e in TopFive(Values(Tallied(items))) ==>
      (exists id :: id in Tallied(items).entries && e == Tallied(items).entries[id] &&
        e.quantity == QuantityFor(items, id) && e.value == ValueFor(items, id))
  {
    var t := Tallied(items);
    TalliedIsTally(items);
    var values := Values(t);
    forall e | e in TopFive(values)
      ensures exists id :: (id in t.entries && e == t.entries[id] &&
        e.quantity == QuantityFor(items, id) && e.value == ValueFor(items, id))
    {
      assert e in values;
      var k :| 0 <= k < |values| && e == values[k];
      var id := t.order[k];
      assert id in t.entries && e == t.entries[id];
      assert e.quantity == QuantityFor(items, id) && e.value == ValueFor(items, id);
    }
  }

  /**
   * `topSellingProductsData`: visits every item of every invoice whose items form an
   * array, skips invalid items, accumulates quantity and value per product id, then
   * returns at most five entries, largest value first, each the summed entry of one
   * product, and no product left out has a larger value than one listed.
   */
  method TopSellingProducts(sales: seq<RawInvoice>) returns (top: seq<ProductSales>)
    ensures top == TopFive(Values(Tallied(AllItems(sales))))
    ensures |top| <= 5 && SortedByValue(top)
  {
    var tally := Tally(map[], []);
    ghost var seen: seq<RawItem> := [];
    var i := 0;
    while i < |sales|
      invariant 0 <= i <= |sales|
      invariant seen == AllItems(sales[..i])
      invariant tally == Tallied(seen)
    {
      var items := ItemsOf(sales[i]);
      var j := 0;
      assert seen + items[..0] == seen;
      while j < |items|
        invariant 0 <= j <= |items|
        invariant tally == Tallied(seen + items[..j])
      {
        TalliedPrefixStep(seen, items, j);
        tally := Step(tally, items[j]);
        j := j + 1;
      }
      AllItemsSnoc(sales, i);
      assert items[..j] == items;
      seen := seen + items;
      i := i + 1;
    }
    assert sales[..i] == sales;
    top := TopFive(Values(tally));
  }

  /** An invoice counts towards a day when its date is valid, its total a number, and its date falls on that day. */
  function OnDay(dayOf: int -> string, day: string): RawInvoice -> bool {
    (s: RawInvoice) => s.date.Some? && s.total.Typed? && dayOf(s.date.value) == day
  }

  /** `totals` holds, for every day, the sum over the counted invoices of `prefix` on that day, and only days that have one. */
  ghost predicate DayTotalsOf(totals: map<string, real>, prefix: seq<RawInvoice>, dayOf: int -> string) {
    forall day ::
      && (day in totals ==> totals[day] == SumOf(Filter(prefix, OnDay(dayOf, day)), SaleTotal))
      && (day in totals <==> Filter(prefix, OnDay(dayOf, day)) != [])
  }

  lemma DayAppend(prefix: seq<RawInvoice>, s: RawInvoice, dayOf: int -> string, day: string)
    ensures Filter(prefix + [s], OnDay(dayOf, day)) == Filter(prefix, OnDay(dayOf, day)) + (if OnDay(dayOf, day)(s) then [s] else [])
    ensures SumOf(Filter(prefix + [s], OnDay(dayOf, day)), SaleTotal)
         == SumOf(Filter(prefix, OnDay(dayOf, day)), SaleTotal) + (if OnDay(dayOf, day)(s) then SaleTotal(s) else 0.0)
  {
    FilterConcat(prefix, [s], OnDay(dayOf, day));
    assert Filter([s], OnDay(dayOf, day)) == if OnDay(dayOf, day)(s) then [s] else [];
    SumOfConcat(Filter(prefix, OnDay(dayOf, day)), Filter([s], OnDay(dayOf, day)), SaleTotal);
  }

  /** The body of the `forEach`: add the invoice's total to its day's entry, creating it when absent. */
  function AddSale(totals: map<string, real>, s: RawInvoice, dayOf: int -> string): map<string, real> {
    if s.date.Some? && s.total.Typed? then
      var day := dayOf(s.date.value);
      totals[day := (if day in totals then totals[day] else 0.0) + s.total.value]
    else totals
  }

  /** An invoice not counted towards `day` leaves that day's entry alone. */
  lemma AddSaleElsewhere(totals: map<string, real>, s: RawInvoice, dayOf: int -> string, day: string)
    requires !OnDay(dayOf, day)(s)
    ensures day in AddSale(totals, s, dayOf) <==> day in totals
    ensures day in totals ==> AddSale(totals, s, dayOf)[day] == totals[day]
  {
  }

  /** An invoice counted towards `day` adds its total to that day's entry, or creates it. */
  lemma AddSaleHere(totals: map<string, real>, s: RawInvoice, dayOf: int -> string, day: string)
    requires OnDay(dayOf, day)(s)
    ensures day in AddSale(totals, s, dayOf)
    ensures AddSale(totals, s, dayOf)[day] == (if day in totals then totals[day] else 0.0) + SaleTotal(s)
  {
  }

  /** One loop step keeps one day's entry equal to the sum of that day's counted totals. */
  lemma AddSaleKeepsDay(totals: map<string, real>, prefix: seq<RawInvoice>, s: RawInvoice, dayOf: int -> string, day: string)
    requires day in totals ==> totals[day] == SumOf(Filter(prefix, OnDay(dayOf, day)), SaleTotal)
    requires day in totals <==> Filter(prefix, OnDay(dayOf, day)) != []
    ensures day in AddSale(totals, s, dayOf) ==>
      AddSale(totals, s, dayOf)[day] == SumOf(Filter(prefix + [s], OnDay(dayOf, day)), SaleTotal)
    ensures day in AddSale(totals, s, dayOf) <==> Filter(prefix + [s], OnDay(dayOf, day)) != []
  {
    DayAppend(prefix, s, dayOf, day);
    if OnDay(dayOf, day)(s) {
      AddSaleHere(totals, s, dayOf, day);
    } else {
      AddSaleElsewhere(totals, s, dayOf, day);
    }
  }

  lemma AddSaleKeepsTotals(totals: map<string, real>, prefix: seq<RawInvoice>, s: RawInvoice, dayOf: int -> string)
    requires DayTotalsOf(totals, prefix, dayOf)
    ensures DayTotalsOf(AddSale(totals, s, dayOf), prefix + [s], dayOf)
  {
    forall day
      ensures day in AddSale(totals, s, dayOf) ==>
        AddSale(totals, s, dayOf)[day] == SumOf(Filter(prefix + [s], OnDay(dayOf, day)), SaleTotal)
      ensures day in AddSale(totals, s, dayOf) <==> Filter(prefix + [s], OnDay(dayOf, day)) != []
    {
      AddSaleKeepsDay(totals, prefix, s, dayOf, day);
    }
  }

  /**
   * `salesByDayData` before its presentation sort: `dayOf` formats a timestamp as the
   * `yyyy-MM-dd` key. A day has an entry exactly when some counted invoice falls on it,
   * and the entry is the sum of their totals.
   */
  method SalesByDay(sales: seq<RawInvoice>, dayOf: int -> string) returns (totals: map<string, real>)
    ensures forall day :: day in totals <==> exists s :: s in sales && OnDay(dayOf, day)(s)
    ensures forall day :: day in totals ==> totals[day] == SumOf(Filter(sales, OnDay(dayOf, day)), SaleTotal)
  {
    totals := map[];
    var i := 0;
    while i < |sales|
      invariant 0 <= i <= |sales|
      invariant DayTotalsOf(totals, sales[..i], dayOf)
    {
      var s := sales[i];
      assert sales[..i + 1] == sales[..i] + [s];
      AddSaleKeepsTotals(totals, sales[..i], s, dayOf);
      totals := AddSale(totals, s, dayOf);
      i := i + 1;
    }
    assert sales[..i] == sales;
    forall day
      ensures day in totals <==> exists s :: s in sales && OnDay(dayOf, day)(s)
    {
      FilterNonEmpty(sales, OnDay(dayOf, day));
    }
  }
}
