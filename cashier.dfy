/**
 * The cashier screen's logic over the client store: the searchable product grid, the cart's
 * total amount and item count, adding a scanned product, and clearing the cart.
 */
module Cashier {
  import opened Wrappers
  import opened Json
  import opened Text
  import opened Seqs
  import opened Db
  import opened Sales
  import opened ProductSearch
  import opened StoreContext

  // ------------------------------------------------------------ filteredItems

  /** The `filter` callback of `filteredItems`. */
  function CashierFilter(search: string): Record -> bool {
    item => CashierMatches(item, search)
  }

  /** `filteredItems`: the inventory items the cashier search matches, in inventory order. */
  function FilteredItems(inventory: seq<Record>, search: string): (r: seq<Record>)
    requires forall k :: 0 <= k < |inventory| ==> SearchReads(inventory[k], Lower(search))
    ensures |r| <= |inventory|
    ensures forall x :: x in r <==> x in inventory && CashierMatches(x, search)
  {
    Keep(inventory, CashierFilter(search))
  }

  /** The grid keeps inventory order: an inventory made of two parts shows the first part's matches, then the second's. */
  lemma FilteredItemsAppend(a: seq<Record>, b: seq<Record>, search: string)
    requires forall k :: 0 <= k < |a| ==> SearchReads(a[k], Lower(search))
    requires forall k :: 0 <= k < |b| ==> SearchReads(b[k], Lower(search))
    ensures FilteredItems(a + b, search) == FilteredItems(a, search) + FilteredItems(b, search)
  {
    KeepAppend(a, b, CashierFilter(search));
  }

  // -------------------------------------------------- cartTotal, totalItemsCount

  /** One line's share of the total: `item.price * item.quantity`. */
  function LineAmount(line: Record): int { Price(line) * Quantity(line) }

  /** `cartTotal`: the sum of price times quantity over the cart, in whole cents. */
  function CartTotal(cart: seq<Record>): int { Sum(cart, LineAmount) }

  /** `totalItemsCount`: the sum of the line quantities. */
  function TotalItemsCount(cart: seq<Record>): int { Sum(cart, Quantity) }

  /** Every line holds at least one item, so a valid cart counts at least as many items as it has lines. */
  lemma {:induction false} ItemsCountAtLeastLines(cart: seq<Record>)
    requires forall i :: 0 <= i < |cart| ==> Quantity(cart[i]) >= 1
    ensures TotalItemsCount(cart) >= |cart|
  {
    if |cart| > 0 {
      ItemsCountAtLeastLines(cart[..|cart| - 1]);
    }
  }

  /** Setting a line's quantity keeps its price. */
  lemma WithQuantity(line: Record, q: int)
    ensures Quantity(line["quantity" := Num(q)]) == q
    ensures Price(line["quantity" := Num(q)]) == Price(line)
    ensures LineAmount(line["quantity" := Num(q)]) == Price(line) * q
  {
  }

  /** One more of a line adds its price to the line's amount. */
  lemma OneMore(line: Record)
    ensures LineAmount(line["quantity" := Num(Quantity(line) + 1)]) == LineAmount(line) + Price(line)
  {
    WithQuantity(line, Quantity(line) + 1);
    var p, q := Price(line), Quantity(line);
    assert p * (q + 1) == p * q + p;
  }

  /** Adding a product puts exactly one more item in a valid cart. */
  lemma ItemsCountAfterAdd(cart: seq<Record>, item: Record)
    requires ValidCart(cart)
    ensures TotalItemsCount(CartAdd(cart, item)) == TotalItemsCount(cart) + 1
  {
    if Find(cart, Id(item)).Some? {
      var k := FindIndex(cart, Id(item)).value;
      SumAfterAddExisting(cart, item, k, Quantity);
      WithQuantity(cart[k], Quantity(cart[k]) + 1);
    } else {
      SumAfterAddNew(cart, item, Quantity);
      WithQuantity(item, 1);
    }
  }

  /** Adding a product raises the total by one unit price: its cart line's when it has one, else the product's own. */
  lemma CartTotalAfterAdd(cart: seq<Record>, item: Record)
    requires ValidCart(cart)
    ensures CartTotal(CartAdd(cart, item)) == CartTotal(cart) +
              match Find(cart, Id(item))
              case Some(line) => Price(line)
              case None => Price(item)
  {
    if Find(cart, Id(item)).Some? {
      var k := FindIndex(cart, Id(item)).value;
      SumAfterAddExisting(cart, item, k, LineAmount);
      OneMore(cart[k]);
      assert Find(cart, Id(item)) == Some(cart[k]);
    } else {
      SumAfterAddNew(cart, item, LineAmount);
      WithQuantity(item, 1);
    }
  }

  /** A line-wise sum after `addToCart` of an item already in the cart: only that line's term changes. */
  lemma SumAfterAddExisting(cart: seq<Record>, item: Record, k: nat, f: Record -> int)
    requires ValidCart(cart)
    requires k < |cart| && HasId(cart[k], Id(item))
    ensures Sum(CartAdd(cart, item), f) == Sum(cart, f) - f(cart[k]) + f(cart[k]["quantity" := Num(Quantity(cart[k]) + 1)])
  {
    CartAddExisting(cart, item, k);
    SumChangeOne(cart, CartAdd(cart, item), f, k);
  }

  /** A line-wise sum after `addToCart` of a new item: the new line's term is added. */
  lemma SumAfterAddNew(cart: seq<Record>, item: Record, f: Record -> int)
    requires Find(cart, Id(item)).None?
    ensures Sum(CartAdd(cart, item), f) == Sum(cart, f) + f(item["quantity" := Num(1)])
  {
    var added := item["quantity" := Num(1)];
    assert forall j :: 0 <= j < |cart| ==> !HasId(cart[j], Id(item));
    assert CartAdd(cart, item) == cart + [added];
    SumAppend(cart, [added], f);
    assert [added][..0] == [];
  }

  /** An empty cart totals 0 and counts no items. */
  lemma EmptyCartTotals()
    ensures CartTotal([]) == 0 && TotalItemsCount([]) == 0
  {
  }

  // --------------------------------------------------------------- handleScan

  /** The `find` callback of `handleScan`: the barcode or the sku equals the scanned code. */
  function ScanMatch(data: string): Record -> bool {
    item => Field(item, "barcode") == Str(data) || Field(item, "sku") == Str(data)
  }

  /** The product a scan finds: the first inventory item whose barcode or sku is the scanned code. */
  function FindScanned(inventory: seq<Record>, data: string): (r: Option<Record>)
    ensures r.None? <==> forall k :: 0 <= k < |inventory| ==> !ScanMatch(data)(inventory[k])
    ensures r.Some? ==> exists k :: 0 <= k < |inventory| && r.value == inventory[k] && ScanMatch(data)(inventory[k])
                                    && forall j :: 0 <= j < k ==> !ScanMatch(data)(inventory[j])
  {
    match FirstIndex(inventory, ScanMatch(data))
    case None => None
    case Some(k) => Some(inventory[k])
  }

  /** `handleScan`: adds the scanned product to the cart; an unknown code leaves the cart as it is (the alert is not modelled). */
  method HandleScan(store: Store, data: string)
    requires store.Valid()
    modifies store
    ensures match FindScanned(old(store.inventory), data)
            case Some(item) => store.cart == CartAdd(old(store.cart), item)
            case None => store.cart == old(store.cart)
    ensures store.inventory == old(store.inventory) && store.viewMode == old(store.viewMode)
    ensures store.Valid()
  {
    var found := FindScanned(store.inventory, data);
    if found.Some? {
      store.AddToCart(found.value);
    }
  }

  /** `handleClearCart`: nothing happens on an empty cart, otherwise the cart is cleared. */
  method HandleClearCart(store: Store)
    requires store.Valid()
    modifies store
    ensures old(store.cart) == [] ==> unchanged(store)
    ensures store.cart == []
    ensures store.inventory == old(store.inventory) && store.viewMode == old(store.viewMode)
    ensures store.Valid()
  {
    if |store.cart| == 0 {
      return;
    }
    store.ClearCart();
  }
}
