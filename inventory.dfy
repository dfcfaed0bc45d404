/**
 * The inventory page: the product list with its add, edit and delete handlers and
 * the search filter over it.
 */
module Inventory {
  import opened Wrappers
  import opened Text
  import opened Seqs

  datatype Product = Product(id: string, barcode: string, name: string, quantity: real, price: real)

  /**
   * The dialog's fields as the handlers read them. A number field holds `''` until
   * something is typed into it, modelled as `None`.
   */
  datatype ProductForm = ProductForm(barcode: string, name: string, quantity: Option<real>, price: Option<real>)

  datatype SaveOutcome = Saved | InvalidForm | DuplicateBarcode

  /** The first guard of both handlers, on the fields as typed (not trimmed). */
  predicate FormRejected(f: ProductForm) {
    f.barcode == "" || f.name == "" || f.quantity.None? || f.price.None? ||
    f.quantity.value < 0.0 || f.price.value < 0.0
  }

  /** `products.some(p => p.barcode === barcode)`. */
  predicate BarcodeTaken(products: seq<Product>, barcode: string) {
    exists i :: 0 <= i < |products| && products[i].barcode == barcode
  }

  /** `products.some(p => p.id !== id && p.barcode === barcode)`. */
  predicate BarcodeTakenByOther(products: seq<Product>, id: string, barcode: string) {
    exists i :: 0 <= i < |products| && products[i].id != id && products[i].barcode == barcode
  }

  ghost predicate BarcodesDistinct(products: seq<Product>) {
    forall i, j :: 0 <= i < j < |products| ==> products[i].barcode != products[j].barcode
  }

  ghost predicate IdsDistinct(products: seq<Product>) {
    forall i, j :: 0 <= i < j < |products| ==> products[i].id != products[j].id
  }

  /** The product the add handler creates: trimmed barcode and name, the numbers as typed. */
  function NewProduct(f: ProductForm, id: string): (p: Product)
    requires !FormRejected(f)
    ensures p.id == id && p.barcode == Trim(f.barcode) && p.name == Trim(f.name)
    ensures p.quantity >= 0.0 && p.price >= 0.0
  {
    Product(id, Trim(f.barcode), Trim(f.name), f.quantity.value, f.price.value)
  }

  /** `products.map(p => p.id === id ? {...p, <the trimmed fields>} : p)`. */
  function Edited(products: seq<Product>, id: string, f: ProductForm): (r: seq<Product>)
    requires !FormRejected(f)
    ensures |r| == |products|
    ensures forall i :: 0 <= i < |r| ==> r[i].id == products[i].id
    ensures forall i :: 0 <= i < |r| && products[i].id != id ==> r[i] == products[i]
    ensures forall i :: 0 <= i < |r| && products[i].id == id ==>
      r[i] == NewProduct(f, id)
  {
    seq(|products|, i requires 0 <= i < |products| =>
      if products[i].id == id then NewProduct(f, id) else products[i])
  }

  /**
   * An edit that passed the duplicate check keeps the barcodes distinct, provided the
   * ids are distinct (so that exactly one product takes the new barcode).
   */
  lemma EditedKeepsBarcodesDistinct(products: seq<Product>, id: string, f: ProductForm)
    requires !FormRejected(f)
    requires IdsDistinct(products) && BarcodesDistinct(products)
    requires !BarcodeTakenByOther(products, id, Trim(f.barcode))
    ensures BarcodesDistinct(Edited(products, id, f))
  {
    var r := Edited(products, id, f);
    forall i, j | 0 <= i < j < |r|
      ensures r[i].barcode != r[j].barcode
    {
      if products[i].id == id && products[j].id != id {
        assert r[j] == products[j];
      } else if products[i].id != id && products[j].id == id {
        assert r[i] == products[i];
      }
    }
  }

  function WithoutId(id: string): Product -> bool {
    (p: Product) => p.id != id
  }

  /** Removing products keeps barcodes distinct. */
  lemma {:induction false} FilterKeepsBarcodesDistinct(products: seq<Product>, p: Product -> bool)
    requires BarcodesDistinct(products)
    ensures BarcodesDistinct(Filter(products, p))
  {
    if products != [] {
      var rest := Filter(products[1..], p);
      assert BarcodesDistinct(products[1..]);
      FilterKeepsBarcodesDistinct(products[1..], p);
      forall x | x in rest ensures x.barcode != products[0].barcode {
        var k :| 1 <= k < |products| && products[k] == x;
      }
    }
  }

  /** Removing products keeps ids distinct. */
  lemma {:induction false} FilterKeepsIdsDistinct(products: seq<Product>, p: Product -> bool)
    requires IdsDistinct(products)
    ensures IdsDistinct(Filter(products, p))
  {
    if products != [] {
      var rest := Filter(products[1..], p);
      assert IdsDistinct(products[1..]);
      FilterKeepsIdsDistinct(products[1..], p);
      forall x | x in rest ensures x.id != products[0].id {
        var k :| 1 <= k < |products| && products[k] == x;
      }
    }
  }

  /** Deleting by id leaves no product with that id and every other product in order. */
  lemma DeleteRemovesExactly(products: seq<Product>, id: string)
    ensures forall p :: p in Filter(products, WithoutId(id)) <==> p in products && p.id != id
    ensures forall p :: p in products && p.id != id ==> p in Filter(products, WithoutId(id))
    ensures forall i :: 0 <= i < |Filter(products, WithoutId(id))| ==> Filter(products, WithoutId(id))[i].id != id
  {
  }

  /** The search predicate, given the already lower-cased term: name (lower-cased) or barcode (as stored). */
  predicate MatchesProduct(p: Product, lowerTerm: string) {
    Includes(Lower(p.name), lowerTerm) || Includes(p.barcode, lowerTerm)
  }

  function SearchWith(lowerTerm: string): Product -> bool {
    (p: Product) => MatchesProduct(p, lowerTerm)
  }

  /**
   * The filtered list: the products, in order, whose lower-cased name contains the
   * lower-cased term or whose barcode contains the lower-cased term.
   */
  function SearchProducts(products: seq<Product>, term: string): (r: seq<Product>)
    ensures |r| <= |products|
    ensures forall p :: p in r <==>
      p in products && (Includes(Lower(p.name), Lower(term)) || Includes(p.barcode, Lower(term)))
  {
    Filter(products, SearchWith(Lower(term)))
  }

  /** An empty search lists every product. */
  lemma SearchEmptyTermKeepsAll(products: seq<Product>)
    ensures SearchProducts(products, "") == products
  {
    forall p | p in products
      ensures SearchWith(Lower(""))(p)
    {
      IncludesEmpty(Lower(p.name));
    }
    FilterKeepsAll(products, SearchWith(Lower("")));
  }

  /**
   * The add handler's duplicate check compares the barcode as typed, but the product is
   * stored with the trimmed barcode: a barcode typed with a leading space passes the
   * check against the same barcode already stored, and two products end up sharing it.
   */
  lemma RawBarcodeCheckAdmitsDuplicate()
    ensures var products := [Product("prod-1", "A", "tea", 1.0, 2.0)];
            var form := ProductForm(" A", "coffee", Some(1.0), Some(3.0));
            && BarcodesDistinct(products)
            && !FormRejected(form)
            && !BarcodeTaken(products, form.barcode)
            && !BarcodesDistinct(products + [NewProduct(form, "prod-2")])
  {
    var products := [Product("prod-1", "A", "tea", 1.0, 2.0)];
    var form := ProductForm(" A", "coffee", Some(1.0), Some(3.0));
    assert |" A"| != |"A"|;
    LeadingSpaceTrimmed();
    TakenTrimmedBarcodeDuplicates(products, form, "prod-2", 0);
  }

  /** Adding a product whose trimmed barcode is already stored breaks barcode uniqueness. */
  lemma TakenTrimmedBarcodeDuplicates(products: seq<Product>, f: ProductForm, id: string, k: nat)
    requires !FormRejected(f)
    requires k < |products| && products[k].barcode == Trim(f.barcode)
    ensures !BarcodesDistinct(products + [NewProduct(f, id)])
  {
    var added := products + [NewProduct(f, id)];
    assert added[k] == products[k] && added[|products|] == NewProduct(f, id);
  }

  lemma LeadingSpaceTrimmed()
    ensures Trim(" A") == "A"
  {
    assert !IsSpace('A') && IsSpace(' ');
    assert SkipSpaceForward(" A", 0) == 1;
    assert SkipSpaceBackward(" A", 1, 2) == 2;
    assert " A"[1..2] == "A";
  }

  /**
   * The add handler's emptiness checks also look at the fields as typed: a name of
   * blanks passes and the product is stored with an empty name.
   */
  lemma RawNameCheckAdmitsBlankName()
    ensures var form := ProductForm("B-1", "  ", Some(1.0), Some(3.0));
            && !FormRejected(form)
            && NewProduct(form, "prod-2").name == ""
  {
    assert AllSpace("  ");
  }

  /** The guard the add handler evidently intends: the trimmed barcode and name must be non-empty. */
  predicate TrimmedFormRejected(f: ProductForm) {
    Trim(f.barcode) == "" || Trim(f.name) == "" || f.quantity.None? || f.price.None? ||
    f.quantity.value < 0.0 || f.price.value < 0.0
  }

  /**
   * With the checks on the trimmed fields, an accepted product has a non-empty barcode
   * and name and the barcodes stay distinct.
   */
  lemma TrimmedAddKeepsBarcodesDistinct(products: seq<Product>, f: ProductForm, id: string)
    requires !TrimmedFormRejected(f)
    requires !BarcodeTaken(products, Trim(f.barcode))
    ensures !FormRejected(f)
    ensures NewProduct(f, id).barcode != "" && NewProduct(f, id).name != ""
    ensures BarcodesDistinct(products) ==> BarcodesDistinct(products + [NewProduct(f, id)])
  {
    var r := products + [NewProduct(f, id)];
    if BarcodesDistinct(products) {
      forall i, j | 0 <= i < j < |r|
        ensures r[i].barcode != r[j].barcode
      {
        if j == |products| {
          assert r[i] == products[i];
        }
      }
    }
  }

  /** The inventory page's product list. */
  class InventoryPage {
    var products: seq<Product>

    constructor (loaded: seq<Product>)
      ensures products == loaded
    {
      products := loaded;
    }

    /**
     * `handleAddProduct` as written; `newId` stands for the generated
     * `prod-<timestamp>` id.
     */
    method AddProduct(form: ProductForm, newId: string) returns (outcome: SaveOutcome)
      modifies this
      ensures outcome == InvalidForm <==> FormRejected(form)
      ensures outcome == DuplicateBarcode <==> !FormRejected(form) && BarcodeTaken(old(products), form.barcode)
      ensures outcome != Saved ==> products == old(products)
      ensures outcome == Saved ==> products == old(products) + [NewProduct(form, newId)]
    {
      if FormRejected(form) {
        return InvalidForm;
      }
      if BarcodeTaken(products, form.barcode) {
        return DuplicateBarcode;
      }
      products := products + [NewProduct(form, newId)];
      outcome := Saved;
    }

    /**
     * The add handler with its checks on the trimmed barcode and name: it never stores
     * an empty barcode or name, and keeps the barcodes distinct.
     */
    method AddProductTrimmed(form: ProductForm, newId: string) returns (outcome: SaveOutcome)
      modifies this
      ensures outcome == InvalidForm <==> TrimmedFormRejected(form)
      ensures outcome == DuplicateBarcode <==> !TrimmedFormRejected(form) && BarcodeTaken(old(products), Trim(form.barcode))
      ensures outcome != Saved ==> products == old(products)
      ensures outcome == Saved ==> !FormRejected(form) && products == old(products) + [NewProduct(form, newId)]
      ensures outcome == Saved ==> products[|products| - 1].barcode != "" && products[|products| - 1].name != ""
      ensures BarcodesDistinct(old(products)) ==> BarcodesDistinct(products)
    {
      if TrimmedFormRejected(form) {
        return InvalidForm;
      }
      if BarcodeTaken(products, Trim(form.barcode)) {
        return DuplicateBarcode;
      }
      TrimmedAddKeepsBarcodesDistinct(products, form, newId);
      products := products + [NewProduct(form, newId)];
      outcome := Saved;
    }

    /**
     * `handleEditProduct`: `current` is the product whose dialog is open (`null` when
     * none). The duplicate check compares the trimmed barcode against the other ids.
     */
    method EditProduct(current: Option<Product>, form: ProductForm) returns (outcome: SaveOutcome)
      modifies this
      ensures outcome == InvalidForm <==> current.None? || FormRejected(form)
      ensures outcome == DuplicateBarcode <==>
        current.Some? && !FormRejected(form) && BarcodeTakenByOther(old(products), current.value.id, Trim(form.barcode))
      ensures outcome != Saved ==> products == old(products)
      ensures outcome == Saved ==> products == Edited(old(products), current.value.id, form)
      ensures IdsDistinct(old(products)) && BarcodesDistinct(old(products)) ==> BarcodesDistinct(products)
    {
      if current.None? || FormRejected(form) {
        return InvalidForm;
      }
      var id := current.value.id;
      if BarcodeTakenByOther(products, id, Trim(form.barcode)) {
        return DuplicateBarcode;
      }
      if IdsDistinct(products) && BarcodesDistinct(products) {
        EditedKeepsBarcodesDistinct(products, id, form);
      }
      products := Edited(products, id, form);
      outcome := Saved;
    }

    /** `handleDeleteProduct`: keeps every product whose id differs, in order. */
    method DeleteProduct(id: string)
      modifies this
      ensures products == Filter(old(products), WithoutId(id))
      ensures forall p :: p in products <==> p in old(products) && p.id != id
      ensures BarcodesDistinct(old(products)) ==> BarcodesDistinct(products)
      ensures IdsDistinct(old(products)) ==> IdsDistinct(products)
    {
      if BarcodesDistinct(products) {
        FilterKeepsBarcodesDistinct(products, WithoutId(id));
      }
      if IdsDistinct(products) {
        FilterKeepsIdsDistinct(products, WithoutId(id));
      }
      products := Filter(products, WithoutId(id));
    }
  }
}
