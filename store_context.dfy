/**
 * The mobile client's store: the local inventory mirror, the cart and the
 * view mode, each replaced as a whole by the provider's operations.
 * Every new value is a pure function of the old one; the `Store` class
 * holds the three state fields and assigns them from those functions.
 */
module StoreContext {
  import opened Wrappers
  import opened Json
  import opened Seqs
  import opened Db
  import opened Sales

  /** `r.id` */
  function Id(r: Record): Value { Field(r, "id") }

  /** `line.quantity` of a cart line. */
  function Quantity(line: Record): int { NumField(line, "quantity") }

  /** `Math.max(a, b)` */
  function Max(a: int, b: int): (m: int)
    ensures m >= a && m >= b && (m == a || m == b)
  {
    if a >= b then a else b
  }

  /** The cart invariant: no two lines for the same item, and every line's quantity is a number of at least 1. */
  predicate ValidCart(cart: seq<Record>) {
    && DistinctKeys(cart, Id)
    && forall i :: 0 <= i < |cart| ==> Field(cart[i], "quantity").Num? && Quantity(cart[i]) >= 1
  }

  // ---------------------------------------------------------------- addToCart

  /** The `map` callback of `addToCart`: one more of the line with that id. */
  function Bump(id: Value): Record -> Record {
    line => if Id(line) == id then line["quantity" := Num(Quantity(line) + 1)] else line
  }

  /** `addToCart(item)`: increments the line for the item if there is one, else appends a line with quantity 1. */
  function CartAdd(cart: seq<Record>, item: Record): (r: seq<Record>)
    ensures (forall j :: 0 <= j < |cart| ==> Id(cart[j]) != Id(item)) ==> r == cart + [item["quantity" := Num(1)]]
    ensures (exists j :: 0 <= j < |cart| && Id(cart[j]) == Id(item)) ==> |r| == |cart|
  {
    if Find(cart, Id(item)).Some? then MapSeq(cart, Bump(Id(item)))
    else cart + [item["quantity" := Num(1)]]
  }

  /** With distinct ids, a record's own id finds that record. */
  lemma UniqueIdIsFound(list: seq<Record>, j: nat)
    requires DistinctKeys(list, Id) && j < |list|
    ensures FindIndex(list, Id(list[j])) == Some(j)
  {
    FindIndexIsFirst(list, Id(list[j]));
    DistinctKeysUnique(list, Id, j);
    assert HasId(list[j], Id(list[j]));
  }

  /** An item already in the cart: that line, and only that line, goes up by one. */
  lemma CartAddExisting(cart: seq<Record>, item: Record, k: nat)
    requires ValidCart(cart)
    requires k < |cart| && Id(cart[k]) == Id(item)
    ensures |CartAdd(cart, item)| == |cart|
    ensures CartAdd(cart, item)[k] == cart[k]["quantity" := Num(Quantity(cart[k]) + 1)]
    ensures forall j :: 0 <= j < |cart| && j != k ==> CartAdd(cart, item)[j] == cart[j]
  {
    var id := Id(item);
    assert HasId(cart[k], id);
    assert Find(cart, id).Some?;
    var r := MapSeq(cart, Bump(id));
    assert CartAdd(cart, item) == r;
    assert r[k] == Bump(id)(cart[k]);
    DistinctKeysUnique(cart, Id, k);
    forall j | 0 <= j < |cart| && j != k ensures r[j] == cart[j] {
      assert Id(cart[j]) != id;
      assert r[j] == Bump(id)(cart[j]);
    }
  }

  /** Bumping keeps a line's id and its numeric quantity, and never lowers it. */
  lemma BumpKeeps(line: Record, id: Value)
    ensures Id(Bump(id)(line)) == Id(line)
    ensures Field(line, "quantity").Num? ==> Field(Bump(id)(line), "quantity").Num?
    ensures Quantity(Bump(id)(line)) >= Quantity(line)
  {
  }

  /** `addToCart` keeps the cart invariant. */
  lemma CartAddValid(cart: seq<Record>, item: Record)
    requires ValidCart(cart)
    ensures ValidCart(CartAdd(cart, item))
  {
    var r := CartAdd(cart, item);
    if Find(cart, Id(item)).Some? {
      forall j | 0 <= j < |cart|
        ensures Id(r[j]) == Id(cart[j]) && Field(r[j], "quantity").Num? && Quantity(r[j]) >= 1
      {
        BumpKeeps(cart[j], Id(item));
      }
    } else {
      assert forall j :: 0 <= j < |cart| ==> !HasId(cart[j], Id(item));
      assert forall j :: 0 <= j < |cart| ==> r[j] == cart[j];
      assert Id(r[|cart|]) == Id(item);
    }
  }

  // ----------------------------------------------------------- removeFromCart

  /** The `filter` callback of `removeFromCart`. */
  function Without(id: Value): Record -> bool {
    line => Id(line) != id
  }

  /** `removeFromCart(id)`: every line with that id is gone, every other line stays. */
  function CartRemove(cart: seq<Record>, id: Value): (r: seq<Record>)
    ensures forall x :: x in r <==> x in cart && Id(x) != id
  {
    Keep(cart, Without(id))
  }

  /** `removeFromCart` keeps the order of the surviving lines: it works line by line. */
  lemma CartRemoveAppend(a: seq<Record>, b: seq<Record>, id: Value)
    ensures CartRemove(a + b, id) == CartRemove(a, id) + CartRemove(b, id)
  {
    KeepAppend(a, b, Without(id));
  }

  /** `removeFromCart` keeps the cart invariant. */
  lemma CartRemoveValid(cart: seq<Record>, id: Value)
    requires ValidCart(cart)
    ensures ValidCart(CartRemove(cart, id))
  {
    KeepDistinct(cart, Without(id), Id);
    var r := CartRemove(cart, id);
    forall i | 0 <= i < |r| ensures Field(r[i], "quantity").Num? && Quantity(r[i]) >= 1 {
      assert r[i] in cart;
    }
  }

  // ------------------------------------------------------- updateCartQuantity

  /** The `map` callback of `updateCartQuantity`: the quantity moves by `change`, floored at 0. */
  function Adjust(id: Value, change: int): Record -> Record {
    line => if Id(line) == id then line["quantity" := Num(Max(0, Quantity(line) + change))] else line
  }

  /** The `filter` callback of `updateCartQuantity`. */
  predicate PositiveQuantity(line: Record) {
    Quantity(line) > 0
  }

  /** `updateCartQuantity(id, change)`: adjusts the line with that id, then drops every line without a positive quantity. */
  function CartChangeQuantity(cart: seq<Record>, id: Value, change: int): (r: seq<Record>)
    ensures |r| <= |cart|
    ensures forall x :: x in r ==> Quantity(x) > 0
  {
    Keep(MapSeq(cart, Adjust(id, change)), PositiveQuantity)
  }

  /** `updateCartQuantity` keeps the order of the surviving lines: it works line by line. */
  lemma CartChangeQuantityAppend(a: seq<Record>, b: seq<Record>, id: Value, change: int)
    ensures CartChangeQuantity(a + b, id, change) == CartChangeQuantity(a, id, change) + CartChangeQuantity(b, id, change)
  {
    MapSeqAppend(a, b, Adjust(id, change));
    KeepAppend(MapSeq(a, Adjust(id, change)), MapSeq(b, Adjust(id, change)), PositiveQuantity);
  }

  /** The line with that id ends with quantity `max(0, q + change)`: it stays when that is positive and is dropped otherwise. */
  lemma CartChangeQuantityTarget(cart: seq<Record>, id: Value, change: int, k: nat)
    requires ValidCart(cart)
    requires k < |cart| && Id(cart[k]) == id
    ensures Quantity(cart[k]) + change > 0 ==>
              cart[k]["quantity" := Num(Quantity(cart[k]) + change)] in CartChangeQuantity(cart, id, change)
    ensures Quantity(cart[k]) + change <= 0 ==>
              forall x :: x in CartChangeQuantity(cart, id, change) ==> Id(x) != id
  {
    var adjusted := MapSeq(cart, Adjust(id, change));
    assert adjusted[k] in adjusted;
    DistinctKeysUnique(cart, Id, k);
    forall x | x in CartChangeQuantity(cart, id, change) && Id(x) == id
      ensures Quantity(cart[k]) + change > 0
    {
      var j :| 0 <= j < |adjusted| && adjusted[j] == x;
      assert Id(cart[j]) == id;
      assert j == k;
    }
  }

  /** Lines for other items are untouched: each stays, and nothing else appears. */
  lemma CartChangeQuantityOthers(cart: seq<Record>, id: Value, change: int)
    requires ValidCart(cart)
    ensures forall k :: 0 <= k < |cart| && Id(cart[k]) != id ==> cart[k] in CartChangeQuantity(cart, id, change)
    ensures forall x :: x in CartChangeQuantity(cart, id, change) && Id(x) != id ==> x in cart
  {
    var adjusted := MapSeq(cart, Adjust(id, change));
    forall k | 0 <= k < |cart| && Id(cart[k]) != id
      ensures cart[k] in CartChangeQuantity(cart, id, change)
    {
      assert adjusted[k] == cart[k];
      assert adjusted[k] in adjusted;
    }
    forall x | x in CartChangeQuantity(cart, id, change) && Id(x) != id
      ensures x in cart
    {
      var j :| 0 <= j < |adjusted| && adjusted[j] == x;
      assert Id(cart[j]) != id;
    }
  }

  /** `updateCartQuantity` establishes the cart invariant from distinct ids alone: the filter removes every line below 1. */
  lemma CartChangeQuantityValid(cart: seq<Record>, id: Value, change: int)
    requires DistinctKeys(cart, Id)
    ensures ValidCart(CartChangeQuantity(cart, id, change))
  {
    var adjusted := MapSeq(cart, Adjust(id, change));
    assert forall j :: 0 <= j < |cart| ==> Id(adjusted[j]) == Id(cart[j]);
    KeepDistinct(adjusted, PositiveQuantity, Id);
  }

  // ----------------------------------------------------------------- checkout

  /** The `map` callback of `checkout`: an item with a cart line loses that line's quantity, floored at 0. */
  function Sold(cart: seq<Record>): Record -> Record {
    item =>
      match Find(cart, Id(item))
      case Some(line) => item["stock" := Num(Max(0, Stock(item) - Quantity(line)))]
      case None => item
  }

  /** The inventory `checkout` computes from the cart at the time of the call. */
  function CheckoutInventory(inventory: seq<Record>, cart: seq<Record>): (r: seq<Record>)
    ensures |r| == |inventory|
  {
    MapSeq(inventory, Sold(cart))
  }

  /** Each item either has a cart line and its stock becomes `max(0, stock - quantity)` with every other field kept, or is unchanged. */
  lemma CheckoutItem(inventory: seq<Record>, cart: seq<Record>, k: nat)
    requires k < |inventory|
    ensures var after := CheckoutInventory(inventory, cart)[k];
            match Find(cart, Id(inventory[k]))
            case None => after == inventory[k]
            case Some(line) =>
              && Stock(after) == Max(0, Stock(inventory[k]) - Quantity(line))
              && Id(line) == Id(inventory[k])
              && forall f :: f != "stock" ==> Field(after, f) == Field(inventory[k], f)
  {
  }

  /** After `checkout` no item that was in the cart has negative stock, and the rest keep theirs. */
  lemma CheckoutStockNonNegative(inventory: seq<Record>, cart: seq<Record>)
    requires forall k :: 0 <= k < |inventory| ==> Stock(inventory[k]) >= 0
    ensures forall k :: 0 <= k < |inventory| ==> Stock(CheckoutInventory(inventory, cart)[k]) >= 0
  {
    forall k | 0 <= k < |inventory| ensures Stock(CheckoutInventory(inventory, cart)[k]) >= 0 {
      CheckoutItem(inventory, cart, k);
    }
  }

  /** The sale request a cart becomes: one line per cart line, in cart order. */
  function AsSaleLines(cart: seq<Record>): (lines: seq<SaleLine>)
    ensures |lines| == |cart|
    ensures forall i :: 0 <= i < |cart| ==> lines[i] == SaleLine(Id(cart[i]), Quantity(cart[i]))
  {
    if |cart| == 0 then [] else [SaleLine(Id(cart[0]), Quantity(cart[0]))] + AsSaleLines(cart[1..])
  }

  /** The first `n` sale lines name an id exactly when the first cart line with that id is among the first `n`. */
  lemma {:induction false} NamedInCart(cart: seq<Record>, n: nat, id: Value)
    requires n <= |cart|
    ensures Named(AsSaleLines(cart), n, id) <==> FindIndex(cart, id).Some? && FindIndex(cart, id).value < n
  {
    var lines := AsSaleLines(cart);
    if n > 0 {
      NamedInCart(cart, n - 1, id);
      var found := FindIndex(cart, id);
      assert lines[n - 1].id == Id(cart[n - 1]);
      assert Named(lines, n, id) == (Named(lines, n - 1, id) || Id(cart[n - 1]) == id);
      if Id(cart[n - 1]) == id {
        assert found.Some? && found.value <= n - 1 by {
          FindIndexIsFirst(cart, id);
          assert HasId(cart[n - 1], id);
        }
      } else {
        assert found.Some? ==> found.value != n - 1;
      }
    }
  }

  /** With distinct cart ids, the first `n` sale lines ask for an id exactly the quantity of its cart line, if that line is among them. */
  lemma {:induction false} DemandOfCart(cart: seq<Record>, n: nat, id: Value)
    requires DistinctKeys(cart, Id) && n <= |cart|
    ensures Named(AsSaleLines(cart), n, id) <==> FindIndex(cart, id).Some? && FindIndex(cart, id).value < n
    ensures Demand(AsSaleLines(cart), n, id) ==
              if Named(AsSaleLines(cart), n, id) then Quantity(cart[FindIndex(cart, id).value]) else 0
  {
    NamedInCart(cart, n, id);
    if n > 0 {
      DemandOfCart(cart, n - 1, id);
      assert AsSaleLines(cart)[n - 1] == SaleLine(Id(cart[n - 1]), Quantity(cart[n - 1]));
      if Id(cart[n - 1]) == id {
        UniqueIdIsFound(cart, n - 1);
      }
    }
  }

  /** A covered sale leaves every named product at least its demand. */
  lemma CoveredDemand(inventory: seq<Record>, cart: seq<Record>, j: nat)
    requires ValidCart(cart)
    requires DistinctKeys(inventory, Id)
    requires Covered(inventory, AsSaleLines(cart), |cart|)
    requires j < |inventory|
    ensures var lines := AsSaleLines(cart);
            Named(lines, |lines|, Id(inventory[j])) ==> Demand(lines, |lines|, Id(inventory[j])) <= Stock(inventory[j])
  {
    var lines := AsSaleLines(cart);
    var id := Id(inventory[j]);
    DemandOfCart(cart, |cart|, id);
    if Named(lines, |lines|, id) {
      var k := FindIndex(cart, id).value;
      assert lines[k].id == id;
      UniqueIdIsFound(inventory, j);
      assert FindIndex(inventory, lines[k].id) == Some(j);
    }
  }

  /** A sale the server accepts asks of each inventory item no more than its stock. */
  lemma SuccessCoversDemand(inventory: seq<Record>, cart: seq<Record>)
    requires ValidCart(cart)
    requires DistinctKeys(inventory, Id)
    requires RunLines(inventory, AsSaleLines(cart)).failure.None?
    ensures var lines := AsSaleLines(cart);
            forall j :: 0 <= j < |inventory| && Named(lines, |lines|, Id(inventory[j])) ==>
              Demand(lines, |lines|, Id(inventory[j])) <= Stock(inventory[j])
  {
    var lines := AsSaleLines(cart);
    RunSucceedsIffCovered(inventory, lines, |lines|);
    forall j | 0 <= j < |inventory| && Named(lines, |lines|, Id(inventory[j]))
      ensures Demand(lines, |lines|, Id(inventory[j])) <= Stock(inventory[j])
    {
      CoveredDemand(inventory, cart, j);
    }
  }

  /** One inventory item under both checkouts, when the sale asks no more than its stock and inventory ids are distinct. */
  lemma CheckoutAgreesAt(inventory: seq<Record>, cart: seq<Record>, j: nat)
    requires ValidCart(cart)
    requires DistinctKeys(inventory, Id)
    requires j < |inventory|
    requires var lines := AsSaleLines(cart);
             Named(lines, |lines|, Id(inventory[j])) ==> Demand(lines, |lines|, Id(inventory[j])) <= Stock(inventory[j])
    ensures CheckoutInventory(inventory, cart)[j] == DeductedAt(inventory, AsSaleLines(cart), |cart|, j)
  {
    var lines := AsSaleLines(cart);
    var id := Id(inventory[j]);
    UniqueIdIsFound(inventory, j);
    assert FirstOfItsId(inventory, j);
    DemandOfCart(cart, |cart|, id);
    assert CheckoutInventory(inventory, cart)[j] == Sold(cart)(inventory[j]);
    if FindIndex(cart, id).Some? {
      var k := FindIndex(cart, id).value;
      assert Find(cart, id) == Some(cart[k]);
      assert Named(lines, |lines|, id) && Demand(lines, |lines|, id) == Quantity(cart[k]);
      assert Max(0, Stock(inventory[j]) - Quantity(cart[k])) == Stock(inventory[j]) - Quantity(cart[k]);
    } else {
      assert Find(cart, id) == None;
      assert !Named(lines, |lines|, id);
    }
  }

  /**
   * With distinct inventory ids, when the server accepts the cart as a sale, the client's
   * optimistic `checkout` computes exactly the server's new product list: the floor at 0 never bites.
   */
  lemma CheckoutAgreesWithServer(inventory: seq<Record>, cart: seq<Record>)
    requires ValidCart(cart)
    requires DistinctKeys(inventory, Id)
    requires RunLines(inventory, AsSaleLines(cart)).failure.None?
    ensures CheckoutInventory(inventory, cart) == RunLines(inventory, AsSaleLines(cart)).products
  {
    var lines := AsSaleLines(cart);
    SuccessCoversDemand(inventory, cart);
    RunKeepsIds(inventory, lines, |lines|);
    forall j | 0 <= j < |inventory|
      ensures CheckoutInventory(inventory, cart)[j] == RunLines(inventory, lines).products[j]
    {
      RunSuccessDeductsAt(inventory, lines, |lines|, j);
      CheckoutAgreesAt(inventory, cart, j);
    }
  }

  // ------------------------------------------------- updateStock, updateInventoryItem

  /** The `map` callback of `updateStock`. */
  function StockSetter(id: Value, quantity: Value): Record -> Record {
    item => if Id(item) == id then item["stock" := quantity] else item
  }

  /** `updateStock(id, quantity)` on the whole inventory. */
  function SetStock(inventory: seq<Record>, id: Value, quantity: Value): (r: seq<Record>)
    ensures |r| == |inventory|
  {
    MapSeq(inventory, StockSetter(id, quantity))
  }

  /** An item with that id gets `stock` set to `quantity` and keeps every other field; any other item is unchanged. */
  lemma SetStockItem(inventory: seq<Record>, id: Value, quantity: Value, k: nat)
    requires k < |inventory|
    ensures Id(inventory[k]) != id ==> SetStock(inventory, id, quantity)[k] == inventory[k]
    ensures Id(inventory[k]) == id ==>
              && SetStock(inventory, id, quantity)[k].Keys == inventory[k].Keys + {"stock"}
              && forall f :: Field(SetStock(inventory, id, quantity)[k], f) ==
                               if f == "stock" then quantity else Field(inventory[k], f)
  {
  }

  lemma StockSetterTwice(item: Record, id: Value, first: Value, second: Value)
    ensures StockSetter(id, second)(StockSetter(id, first)(item)) == StockSetter(id, second)(item)
  {
    if Id(item) == id {
      assert Id(item["stock" := first]) == id;
      assert item["stock" := first]["stock" := second] == item["stock" := second];
    }
  }

  /** A second `updateStock` of the same id overrides the first. */
  lemma SetStockTwice(inventory: seq<Record>, id: Value, first: Value, second: Value)
    ensures SetStock(SetStock(inventory, id, first), id, second) == SetStock(inventory, id, second)
  {
    var once := SetStock(inventory, id, first);
    forall k | 0 <= k < |inventory|
      ensures SetStock(once, id, second)[k] == SetStock(inventory, id, second)[k]
    {
      StockSetterTwice(inventory[k], id, first, second);
    }
  }

  /** The `map` callback of `updateInventoryItem`. */
  function FieldsMerger(id: Value, fields: Record): Record -> Record {
    item => if Id(item) == id then Merge(item, fields) else item
  }

  /** `updateInventoryItem(id, fields)` on the whole inventory. */
  function MergeInto(inventory: seq<Record>, id: Value, fields: Record): (r: seq<Record>)
    ensures |r| == |inventory|
  {
    MapSeq(inventory, FieldsMerger(id, fields))
  }

  /** An item with that id has `fields` shallow-merged in; any other item is unchanged. */
  lemma MergeIntoItem(inventory: seq<Record>, id: Value, fields: Record, k: nat)
    requires k < |inventory|
    ensures Id(inventory[k]) != id ==> MergeInto(inventory, id, fields)[k] == inventory[k]
    ensures Id(inventory[k]) == id ==>
              && MergeInto(inventory, id, fields)[k].Keys == inventory[k].Keys + fields.Keys
              && forall f :: Field(MergeInto(inventory, id, fields)[k], f) ==
                               if f in fields then fields[f] else Field(inventory[k], f)
  {
  }

  /** Spreading a one-property object over a record is setting that property. */
  lemma MergeOne(r: Record, f: string, v: Value)
    ensures Merge(r, map[f := v]) == r[f := v]
  {
    assert Merge(r, map[f := v]).Keys == r[f := v].Keys;
  }

  /** Merging in just `{ stock: q }` is `updateStock(id, q)`. */
  lemma MergeStockIsSetStock(inventory: seq<Record>, id: Value, quantity: Value)
    ensures MergeInto(inventory, id, map["stock" := quantity]) == SetStock(inventory, id, quantity)
  {
    var merged := MergeInto(inventory, id, map["stock" := quantity]);
    forall k | 0 <= k < |inventory| ensures merged[k] == SetStock(inventory, id, quantity)[k] {
      MergeOne(inventory[k], "stock", quantity);
    }
  }

  /** `addToInventory(item)`: the item with the fresh id put in front of the inventory. */
  function WithNewItem(inventory: seq<Record>, item: Record, freshId: string): (r: seq<Record>)
    ensures |r| == |inventory| + 1
    ensures r[1..] == inventory
    ensures Id(r[0]) == Str(freshId)
    ensures r[0].Keys == item.Keys + {"id"}
    ensures forall f :: f != "id" ==> Field(r[0], f) == Field(item, f)
  {
    [item["id" := Str(freshId)]] + inventory
  }

  /** The new item is the one a lookup of the fresh id finds, whatever the rest of the inventory holds. */
  lemma NewItemIsFound(inventory: seq<Record>, item: Record, freshId: string)
    ensures Find(WithNewItem(inventory, item, freshId), Str(freshId)) == Some(WithNewItem(inventory, item, freshId)[0])
  {
    assert FindIndex(WithNewItem(inventory, item, freshId), Str(freshId)) == Some(0);
  }

  // ----------------------------------------------------------- toggleViewMode

  /** `toggleViewMode`: 'grid' becomes 'list', anything else becomes 'grid'. */
  function Toggled(mode: string): (r: string)
    ensures r == "grid" || r == "list"
    ensures r == "list" <==> mode == "grid"
  {
    if mode == "grid" then "list" else "grid"
  }

  /** Toggling twice returns to the mode one started from. */
  lemma ToggleTwice(mode: string)
    requires mode == "grid" || mode == "list"
    ensures Toggled(Toggled(mode)) == mode
  {
    assert "grid"[0] != "list"[0];
  }

  // ---------------------------------------------------------------- the store

  /** The provider's state: `inventory`, `cart` and `viewMode` (the signed-in user is not modelled). */
  class Store {
    var inventory: seq<Record>
    var cart: seq<Record>
    var viewMode: string

    /** What every operation keeps: a valid cart and one of the two view modes. */
    ghost predicate Valid()
      reads this
    {
      ValidCart(cart) && (viewMode == "grid" || viewMode == "list")
    }

    /** The initial state: the given inventory, an empty cart, the grid view. */
    constructor (initialInventory: seq<Record>)
      ensures inventory == initialInventory && cart == [] && viewMode == "grid"
      ensures Valid()
    {
      inventory := initialInventory;
      cart := [];
      viewMode := "grid";
    }

    method AddToInventory(item: Record, freshId: string)
      requires Valid()
      modifies this
      ensures inventory == WithNewItem(old(inventory), item, freshId)
      ensures cart == old(cart) && viewMode == old(viewMode)
      ensures Valid()
    {
      inventory := WithNewItem(inventory, item, freshId);
    }

    method UpdateStock(id: Value, quantity: Value)
      requires Valid()
      modifies this
      ensures inventory == SetStock(old(inventory), id, quantity)
      ensures cart == old(cart) && viewMode == old(viewMode)
      ensures Valid()
    {
      inventory := SetStock(inventory, id, quantity);
    }

    method UpdateInventoryItem(id: Value, fields: Record)
      requires Valid()
      modifies this
      ensures inventory == MergeInto(old(inventory), id, fields)
      ensures cart == old(cart) && viewMode == old(viewMode)
      ensures Valid()
    {
      inventory := MergeInto(inventory, id, fields);
    }

    method AddToCart(item: Record)
      requires Valid()
      modifies this
      ensures cart == CartAdd(old(cart), item)
      ensures inventory == old(inventory) && viewMode == old(viewMode)
      ensures Valid()
    {
      CartAddValid(cart, item);
      cart := CartAdd(cart, item);
    }

    method RemoveFromCart(id: Value)
      requires Valid()
      modifies this
      ensures cart == CartRemove(old(cart), id)
      ensures inventory == old(inventory) && viewMode == old(viewMode)
      ensures Valid()
    {
      CartRemoveValid(cart, id);
      cart := CartRemove(cart, id);
    }

    method ClearCart()
      requires Valid()
      modifies this
      ensures cart == []
      ensures inventory == old(inventory) && viewMode == old(viewMode)
      ensures Valid()
    {
      cart := [];
    }

    method UpdateCartQuantity(id: Value, change: int)
      requires Valid()
      modifies this
      ensures cart == CartChangeQuantity(old(cart), id, change)
      ensures inventory == old(inventory) && viewMode == old(viewMode)
      ensures Valid()
    {
      CartChangeQuantityValid(cart, id, change);
      cart := CartChangeQuantity(cart, id, change);
    }

    /** Deducts the cart from the local inventory, floored at 0, and empties the cart. */
    method Checkout()
      requires Valid()
      modifies this
      ensures inventory == CheckoutInventory(old(inventory), old(cart))
      ensures cart == []
      ensures viewMode == old(viewMode)
      ensures Valid()
    {
      inventory := CheckoutInventory(inventory, cart);
      cart := [];
    }

    method ToggleViewMode()
      requires Valid()
      modifies this
      ensures viewMode == Toggled(old(viewMode))
      ensures inventory == old(inventory) && cart == old(cart)
      ensures Valid()
    {
      viewMode := Toggled(viewMode);
    }
  }
}
