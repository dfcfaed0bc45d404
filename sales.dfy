/**
 * The sales page: an invoice draft built line by line against the inventory,
 * finalised into the invoice history while the sold quantities leave the stock.
 */
module Sales {
  import opened Wrappers
  import opened Seqs
  import Inventory

  type Product = Inventory.Product

  /** A draft line: the product as it was when added, the quantity sold and the price it is sold at. */
  datatype InvoiceItem = InvoiceItem(product: Product, saleQuantity: real, salePrice: real)

  /** `date` is the finalisation time as a timestamp. */
  datatype Invoice = Invoice(id: string, date: int, items: seq<InvoiceItem>, total: real)

  datatype AddItemOutcome = InvalidInput | ProductNotFound | InsufficientStock | MergedTotalExceedsStock | Merged | Appended

  datatype FinalizeOutcome = EmptyInvoice | Finalized(invoice: Invoice)

  /**
   * The first guard of the add handler: a product must be selected (neither
   * `undefined` nor `''`), the quantity must be given and positive, the price given
   * and not negative.
   */
  predicate InputRejected(selected: Option<string>, quantity: Option<real>, price: Option<real>) {
    selected.None? || selected.value == "" || quantity.None? || quantity.value <= 0.0 ||
    price.None? || price.value < 0.0
  }

  function HasId(id: string): Product -> bool {
    (p: Product) => p.id == id
  }

  /** `inventoryProducts.find(p => p.id === id)`: the first product with that id. */
  function FindProduct(inventory: seq<Product>, id: string): (r: Option<Product>)
    ensures r.None? <==> forall i :: 0 <= i < |inventory| ==> inventory[i].id != id
    ensures r.Some? ==> r.value in inventory && r.value.id == id
    ensures r.Some? ==> exists k :: (0 <= k < |inventory| && inventory[k] == r.value &&
      forall i :: 0 <= i < k ==> inventory[i].id != id)
  {
    var k := FindIndex(inventory, HasId(id));
    if k == -1 then None else Some(inventory[k])
  }

  /** A line is identified by its product id together with its sale price. */
  function LineIs(id: string, price: real): InvoiceItem -> bool {
    (it: InvoiceItem) => it.product.id == id && it.salePrice == price
  }

  function LineAmount(it: InvoiceItem): real {
    it.salePrice * it.saleQuantity
  }

  /** `calculateTotal`: the sum over the lines of sale price times quantity. */
  function Total(items: seq<InvoiceItem>): real {
    SumOf(items, LineAmount)
  }

  /** No two lines share both product id and sale price. */
  ghost predicate LinesDistinct(items: seq<InvoiceItem>) {
    forall i, j :: 0 <= i < j < |items| ==>
      items[i].product.id != items[j].product.id || items[i].salePrice != items[j].salePrice
  }

  /**
   * What the add handler guarantees of every draft line: a positive quantity, a
   * price not below 0, and a product in the inventory whose stock covers the line.
   */
  ghost predicate LineBacked(it: InvoiceItem, inventory: seq<Product>) {
    && it.saleQuantity > 0.0 && it.salePrice >= 0.0
    && FindProduct(inventory, it.product.id).Some?
    && it.saleQuantity <= FindProduct(inventory, it.product.id).value.quantity
  }

  ghost predicate DraftValid(items: seq<InvoiceItem>, inventory: seq<Product>) {
    LinesDistinct(items) && forall i :: 0 <= i < |items| ==> LineBacked(items[i], inventory)
  }

  /** Merging into line `k` adds the new quantity times the line's price to the total. */
  lemma TotalAfterMerge(items: seq<InvoiceItem>, k: nat, quantity: real)
    requires k < |items|
    ensures Total(items[k := items[k].(saleQuantity := items[k].saleQuantity + quantity)])
         == Total(items) + items[k].salePrice * quantity
  {
    SumOfUpdateAt(items, k, items[k].(saleQuantity := items[k].saleQuantity + quantity), LineAmount);
  }

  /** Appending a line adds its amount to the total. */
  lemma TotalAfterAppend(items: seq<InvoiceItem>, it: InvoiceItem)
    ensures Total(items + [it]) == Total(items) + it.salePrice * it.saleQuantity
  {
    SumOfConcat(items, [it], LineAmount);
    assert SumOf([it], LineAmount) == LineAmount(it) + SumOf([], LineAmount);
  }

  /** Removing line `k` takes its amount out of the total. */
  lemma TotalAfterRemove(items: seq<InvoiceItem>, k: nat)
    requires k < |items|
    ensures Total(RemovedAt(items, k)) == Total(items) - items[k].salePrice * items[k].saleQuantity
  {
    SumOfRemoveAt(items, k, LineAmount);
  }

  /** A draft whose lines have non-negative prices and quantities has a non-negative total. */
  lemma TotalNonNegative(items: seq<InvoiceItem>, inventory: seq<Product>)
    requires DraftValid(items, inventory)
    ensures Total(items) >= 0.0
  {
    forall it | it in items ensures LineAmount(it) >= 0.0 {
      var i :| 0 <= i < |items| && items[i] == it;
      assert LineBacked(items[i], inventory);
    }
    SumOfNonNegative(items, LineAmount);
  }

  /** `splice(k, 1)`: the lines before `k`, then the lines after it. */
  function RemovedAt(items: seq<InvoiceItem>, k: nat): (r: seq<InvoiceItem>)
    requires k < |items|
    ensures |r| == |items| - 1
    ensures forall i :: 0 <= i < k ==> r[i] == items[i]
    ensures forall i :: k <= i < |r| ==> r[i] == items[i + 1]
  {
    items[..k] + items[k + 1..]
  }

  /** With distinct lines, removing the first match leaves no line with that id and price. */
  lemma RemoveLeavesNoMatch(items: seq<InvoiceItem>, k: nat)
    requires LinesDistinct(items) && k < |items|
    ensures forall it :: it in RemovedAt(items, k) ==> !LineIs(items[k].product.id, items[k].salePrice)(it)
  {
    var r := RemovedAt(items, k);
    forall it | it in r
      ensures !LineIs(items[k].product.id, items[k].salePrice)(it)
    {
      var i :| 0 <= i < |r| && r[i] == it;
      if i >= k {
        assert r[i] == items[i + 1];
      }
    }
  }

  /** Removing a line keeps a valid draft valid. */
  lemma RemoveKeepsValid(items: seq<InvoiceItem>, inventory: seq<Product>, k: nat)
    requires DraftValid(items, inventory) && k < |items|
    ensures DraftValid(RemovedAt(items, k), inventory)
  {
    var r := RemovedAt(items, k);
    forall i, j | 0 <= i < j < |r|
      ensures r[i].product.id != r[j].product.id || r[i].salePrice != r[j].salePrice
    {
      var i', j' := if i < k then i else i + 1, if j < k then j else j + 1;
      assert r[i] == items[i'] && r[j] == items[j'];
    }
    forall i | 0 <= i < |r| ensures LineBacked(r[i], inventory) {
      if i >= k {
        assert r[i] == items[i + 1];
      }
    }
  }

  /** Merging a quantity the stock still covers into a line keeps a valid draft valid. */
  lemma MergeKeepsValid(items: seq<InvoiceItem>, inventory: seq<Product>, k: nat, quantity: real)
    requires DraftValid(items, inventory) && k < |items| && quantity > 0.0
    requires items[k].saleQuantity + quantity <= FindProduct(inventory, items[k].product.id).value.quantity
    ensures DraftValid(items[k := items[k].(saleQuantity := items[k].saleQuantity + quantity)], inventory)
  {
    assert LineBacked(items[k], inventory);
  }

  /** Appending a backed line that matches no existing line keeps a valid draft valid. */
  lemma AppendKeepsValid(items: seq<InvoiceItem>, inventory: seq<Product>, line: InvoiceItem)
    requires DraftValid(items, inventory) && LineBacked(line, inventory)
    requires forall i :: 0 <= i < |items| ==> !LineIs(line.product.id, line.salePrice)(items[i])
    ensures DraftValid(items + [line], inventory)
  {
    var r := items + [line];
    forall i, j | 0 <= i < j < |r|
      ensures r[i].product.id != r[j].product.id || r[i].salePrice != r[j].salePrice
    {
      if j == |items| {
        assert !LineIs(line.product.id, line.salePrice)(items[i]);
      }
    }
  }

  function ForProduct(id: string): InvoiceItem -> bool {
    (it: InvoiceItem) => it.product.id == id
  }

  function SoldQuantity(it: InvoiceItem): real {
    it.saleQuantity
  }

  /** The quantity of one product sold on an invoice, over all its lines. */
  function SoldOf(items: seq<InvoiceItem>, id: string): real {
    SumOf(Filter(items, ForProduct(id)), SoldQuantity)
  }

  /** One product's stock after the sale: reduced by what was sold, never below 0. */
  function Decremented(p: Product, sold: real): (r: Product)
    ensures r.id == p.id && r.barcode == p.barcode && r.name == p.name && r.price == p.price
    ensures sold > 0.0 && sold <= p.quantity ==> r.quantity + sold == p.quantity
    ensures sold > 0.0 && sold > p.quantity ==> r.quantity == 0.0
    ensures sold <= 0.0 ==> r == p
  {
    if sold > 0.0 then p.(quantity := Max(0.0, p.quantity - sold)) else p
  }

  /** The inventory after finalising: each product decremented by its sold quantity, in place. */
  function AfterSale(inventory: seq<Product>, items: seq<InvoiceItem>): (r: seq<Product>)
    ensures |r| == |inventory|
    ensures forall i :: 0 <= i < |r| ==> r[i] == Decremented(inventory[i], SoldOf(items, inventory[i].id))
  {
    seq(|inventory|, i requires 0 <= i < |inventory| => Decremented(inventory[i], SoldOf(items, inventory[i].id)))
  }

  /** On a valid draft a product's sold quantity is positive exactly when some line is for it. */
  lemma SoldPositiveIffOnInvoice(items: seq<InvoiceItem>, inventory: seq<Product>, id: string)
    requires DraftValid(items, inventory)
    ensures SoldOf(items, id) > 0.0 <==> exists i :: 0 <= i < |items| && items[i].product.id == id
    ensures SoldOf(items, id) >= 0.0
  {
    var lines := Filter(items, ForProduct(id));
    forall it | it in lines ensures SoldQuantity(it) > 0.0 {
      var i :| 0 <= i < |items| && items[i] == it;
      assert LineBacked(items[i], inventory);
    }
    if lines != [] {
      SumOfPositive(lines, SoldQuantity);
      assert lines[0] in lines;
    } else {
      forall i | 0 <= i < |items| ensures items[i].product.id != id {
        assert items[i] !in lines;
      }
    }
  }

  /**
   * Finalising never leaves a negative stock, and a product on no line of a valid
   * draft keeps its entry unchanged.
   */
  lemma AfterSaleStock(inventory: seq<Product>, items: seq<InvoiceItem>)
    requires DraftValid(items, inventory)
    ensures forall i :: 0 <= i < |inventory| && inventory[i].quantity >= 0.0 ==> AfterSale(inventory, items)[i].quantity >= 0.0
    ensures forall i :: 0 <= i < |inventory| && (forall j :: 0 <= j < |items| ==> items[j].product.id != inventory[i].id) ==>
      AfterSale(inventory, items)[i] == inventory[i]
  {
    forall i | 0 <= i < |inventory|
      ensures inventory[i].quantity >= 0.0 ==> AfterSale(inventory, items)[i].quantity >= 0.0
      ensures (forall j :: 0 <= j < |items| ==> items[j].product.id != inventory[i].id) ==>
        AfterSale(inventory, items)[i] == inventory[i]
    {
      SoldPositiveIffOnInvoice(items, inventory, inventory[i].id);
    }
  }

  /**
   * Each line is checked against the stock on its own: two lines of one product at
   * different prices can each fit while together they exceed the stock, and
   * finalising then floors that product's quantity at 0.
   */
  lemma StockBoundIsPerLine()
    ensures var p := Inventory.Product("prod-1", "B-1", "tea", 5.0, 1.0);
            var items := [InvoiceItem(p, 3.0, 1.0), InvoiceItem(p, 3.0, 2.0)];
            && DraftValid(items, [p])
            && SoldOf(items, p.id) > p.quantity
            && AfterSale([p], items)[0].quantity == 0.0
  {
    var p := Inventory.Product("prod-1", "B-1", "tea", 5.0, 1.0);
    var items := [InvoiceItem(p, 3.0, 1.0), InvoiceItem(p, 3.0, 2.0)];
    assert FindProduct([p], p.id) == Some(p);
    assert Filter(items, ForProduct(p.id)) == items by {
      FilterKeepsAll(items, ForProduct(p.id));
    }
    assert items[1..][1..] == [];
    assert SumOf(items[1..], SoldQuantity) == 3.0;
    assert SoldOf(items, p.id) == 6.0;
  }

  /** The result of adding to the draft: the outcome and the new lines. */
  datatype AddResult = AddResult(outcome: AddItemOutcome, items: seq<InvoiceItem>)

  /**
   * What `handleAddProductToInvoice` does to the draft `items`: the guards in order,
   * then a merge into the first line with the same product id and sale price, or a
   * new line at the end holding the product as found in the inventory.
   */
  function AddToDraft(inventory: seq<Product>, items: seq<InvoiceItem>,
                      selected: Option<string>, quantity: Option<real>, price: Option<real>): (r: AddResult)
    ensures r.outcome == InvalidInput <==> InputRejected(selected, quantity, price)
    ensures r.outcome == ProductNotFound <==>
      !InputRejected(selected, quantity, price) && FindProduct(inventory, selected.value).None?
    ensures r.outcome == InsufficientStock <==>
      !InputRejected(selected, quantity, price) && FindProduct(inventory, selected.value).Some? &&
      FindProduct(inventory, selected.value).value.quantity < quantity.value
    ensures r.outcome == MergedTotalExceedsStock || r.outcome == Merged ==>
      var k := FindIndex(items, LineIs(selected.value, price.value));
      && k >= 0
      && (r.outcome == MergedTotalExceedsStock <==>
           FindProduct(inventory, selected.value).value.quantity < items[k].saleQuantity + quantity.value)
    ensures r.outcome == Appended ==> FindIndex(items, LineIs(selected.value, price.value)) == -1
    ensures r.outcome != Merged && r.outcome != Appended ==> r.items == items
    ensures r.outcome == Merged ==>
      var k := FindIndex(items, LineIs(selected.value, price.value));
      && |r.items| == |items|
      && r.items[k] == items[k].(saleQuantity := items[k].saleQuantity + quantity.value)
      && forall i :: 0 <= i < |items| && i != k ==> r.items[i] == items[i]
    ensures r.outcome == Appended ==>
      && |r.items| == |items| + 1 && r.items[..|items|] == items
      && r.items[|items|] == InvoiceItem(FindProduct(inventory, selected.value).value, quantity.value, price.value)
  {
    if InputRejected(selected, quantity, price) then AddResult(InvalidInput, items)
    else
      var id, q, sp := selected.value, quantity.value, price.value;
      var found := FindProduct(inventory, id);
      if found.None? then AddResult(ProductNotFound, items)
      else if found.value.quantity < q then AddResult(InsufficientStock, items)
      else
        var k := FindIndex(items, LineIs(id, sp));
        if k > -1 then
          if found.value.quantity < items[k].saleQuantity + q then AddResult(MergedTotalExceedsStock, items)
          else AddResult(Merged, items[k := items[k].(saleQuantity := items[k].saleQuantity + q)])
        else AddResult(Appended, items + [InvoiceItem(found.value, q, sp)])
  }

  /** A successful add raises the total by exactly the added quantity times its price. */
  lemma AddRaisesTotal(inventory: seq<Product>, items: seq<InvoiceItem>,
                       selected: Option<string>, quantity: Option<real>, price: Option<real>)
    requires AddToDraft(inventory, items, selected, quantity, price).outcome in {Merged, Appended}
    ensures Total(AddToDraft(inventory, items, selected, quantity, price).items)
         == Total(items) + price.value * quantity.value
  {
    var p, q := price.value, quantity.value;
    var k := FindIndex(items, LineIs(selected.value, p));
    var r := AddToDraft(inventory, items, selected, quantity, price);
    if k > -1 {
      assert r.items == items[k := items[k].(saleQuantity := items[k].saleQuantity + q)];
      assert items[k].salePrice == p;
      TotalAfterMerge(items, k, q);
      assert Total(r.items) == Total(items) + p * q;
    } else {
      var line := InvoiceItem(FindProduct(inventory, selected.value).value, q, p);
      assert r.items == items + [line];
      TotalAfterAppend(items, line);
      assert Total(r.items) == Total(items) + p * q;
    }
  }

  /**
   * Adding keeps a valid draft valid: lines stay distinct by (id, price), and every
   * line stays positive and within its product's stock.
   */
  lemma AddKeepsValid(inventory: seq<Product>, items: seq<InvoiceItem>,
                      selected: Option<string>, quantity: Option<real>, price: Option<real>)
    requires DraftValid(items, inventory)
    ensures DraftValid(AddToDraft(inventory, items, selected, quantity, price).items, inventory)
  {
    var r := AddToDraft(inventory, items, selected, quantity, price);
    if r.outcome == Merged {
      var k := FindIndex(items, LineIs(selected.value, price.value));
      assert items[k].product.id == selected.value;
      MergeKeepsValid(items, inventory, k, quantity.value);
    } else if r.outcome == Appended {
      var found := FindProduct(inventory, selected.value).value;
      var line := InvoiceItem(found, quantity.value, price.value);
      assert FindProduct(inventory, line.product.id) == Some(found);
      AppendKeepsValid(items, inventory, line);
    }
  }

  /** What `handleRemoveProductFromInvoice` does to the draft: drop the first line with that id and price, if any. */
  function RemoveFromDraft(items: seq<InvoiceItem>, id: string, price: real): (r: seq<InvoiceItem>)
    ensures FindIndex(items, LineIs(id, price)) == -1 ==> r == items
    ensures FindIndex(items, LineIs(id, price)) >= 0 ==> |r| == |items| - 1
  {
    var k := FindIndex(items, LineIs(id, price));
    if k > -1 then RemovedAt(items, k) else items
  }

  /**
   * Removing takes exactly the first matching line out: the lines before it and after
   * it keep their order, and the total drops by that line's amount.
   */
  lemma RemoveDropsFirstMatch(items: seq<InvoiceItem>, id: string, price: real)
    requires FindIndex(items, LineIs(id, price)) >= 0
    ensures var k := FindIndex(items, LineIs(id, price));
      && items[k].product.id == id && items[k].salePrice == price
      && (forall i :: 0 <= i < k ==> !(items[i].product.id == id && items[i].salePrice == price))
      && RemoveFromDraft(items, id, price) == items[..k] + items[k + 1..]
      && Total(RemoveFromDraft(items, id, price)) == Total(items) - price * items[k].saleQuantity
  {
    var k := FindIndex(items, LineIs(id, price));
    assert LineIs(id, price)(items[k]);
    forall i | 0 <= i < k ensures !(items[i].product.id == id && items[i].salePrice == price) {
      assert !LineIs(id, price)(items[i]);
    }
    TotalAfterRemove(items, k);
  }

  /** On a draft with distinct lines, no line with that id and price is left after removing. */
  lemma RemoveLeavesNone(items: seq<InvoiceItem>, id: string, price: real)
    requires LinesDistinct(items)
    ensures forall it :: it in RemoveFromDraft(items, id, price) ==> !(it.product.id == id && it.salePrice == price)
  {
    var k := FindIndex(items, LineIs(id, price));
    if k > -1 {
      assert LineIs(id, price)(items[k]);
      RemoveLeavesNoMatch(items, k);
    } else {
      forall it | it in items ensures !(it.product.id == id && it.salePrice == price) {
        var i :| 0 <= i < |items| && items[i] == it;
        assert !LineIs(id, price)(items[i]);
      }
    }
  }

  /** Removing keeps a valid draft valid. */
  lemma RemoveKeepsDraftValid(items: seq<InvoiceItem>, inventory: seq<Product>, id: string, price: real)
    requires DraftValid(items, inventory)
    ensures DraftValid(RemoveFromDraft(items, id, price), inventory)
  {
    var k := FindIndex(items, LineIs(id, price));
    if k > -1 {
      RemoveKeepsValid(items, inventory, k);
    }
  }

  /** The sales page's state: the inventory, the draft invoice and the history, newest first. */
  class SalesPage {
    var inventory: seq<Product>
    var draft: seq<InvoiceItem>
    var history: seq<Invoice>

    constructor (loadedInventory: seq<Product>, loadedHistory: seq<Invoice>)
      ensures inventory == loadedInventory && history == loadedHistory && draft == []
      ensures DraftValid(draft, inventory)
    {
      inventory := loadedInventory;
      history := loadedHistory;
      draft := [];
    }

    /**
     * `handleAddProductToInvoice` with the form's selected id, quantity and price
     * (`None` for an empty field). A line with the same product id and sale price
     * absorbs the quantity; otherwise a new line is appended.
     */
    method AddProductToInvoice(selected: Option<string>, quantity: Option<real>, price: Option<real>)
      returns (outcome: AddItemOutcome)
      modifies this
      ensures inventory == old(inventory) && history == old(history)
      ensures AddResult(outcome, draft) == AddToDraft(inventory, old(draft), selected, quantity, price)
    {
      if InputRejected(selected, quantity, price) {
        return InvalidInput;
      }
      var id, q, sp := selected.value, quantity.value, price.value;
      var found := FindProduct(inventory, id);
      if found.None? {
        return ProductNotFound;
      }
      var product := found.value;
      if product.quantity < q {
        return InsufficientStock;
      }
      var k := FindIndex(draft, LineIs(id, sp));
      if k > -1 {
        var newTotalQuantity := draft[k].saleQuantity + q;
        if product.quantity < newTotalQuantity {
          return MergedTotalExceedsStock;
        }
        draft := draft[k := draft[k].(saleQuantity := newTotalQuantity)];
        outcome := Merged;
      } else {
        draft := draft + [InvoiceItem(product, q, sp)];
        outcome := Appended;
      }
    }

    /** `handleRemoveProductFromInvoice`: removes the first line with that id and price, if any. */
    method RemoveProductFromInvoice(id: string, price: real)
      modifies this
      ensures inventory == old(inventory) && history == old(history)
      ensures draft == RemoveFromDraft(old(draft), id, price)
    {
      var k := FindIndex(draft, LineIs(id, price));
      if k > -1 {
        draft := RemovedAt(draft, k);
      }
    }

    /**
     * `handleFinalizeInvoice`; `newId` and `now` stand for the generated invoice id and
     * the current time. The invoice copies the draft and its total, every product's
     * stock drops by what was sold of it (not below 0), the invoice goes to the front
     * of the history and the draft is emptied.
     */
    method FinalizeInvoice(newId: string, now: int) returns (outcome: FinalizeOutcome)
      modifies this
      ensures old(draft) == [] ==>
        outcome == EmptyInvoice && inventory == old(inventory) && history == old(history) && draft == old(draft)
      ensures old(draft) != [] ==>
        && outcome == Finalized(Invoice(newId, now, old(draft), Total(old(draft))))
        && inventory == AfterSale(old(inventory), old(draft))
        && history == [outcome.invoice] + old(history)
        && draft == []
      // Either way the page is left with an empty draft, so the next invoice starts afresh.
      ensures draft == []
    {
      if draft == [] {
        return EmptyInvoice;
      }
      var invoice := Invoice(newId, now, draft, Total(draft));
      inventory := AfterSale(inventory, draft);
      history := [invoice] + history;
      draft := [];
      outcome := Finalized(invoice);
    }
  }
}
