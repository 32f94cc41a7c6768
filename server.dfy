/**
 * The API's request handlers over the shared record store: the sale (`POST /transactions`),
 * the catalogue listing with its category and search filters (`GET /products`) and product
 * creation (`POST /products`). Fresh ids and the clock are parameters.
 */
module Server {
  import opened Wrappers
  import opened Json
  import opened Text
  import opened Seqs
  import opened Db
  import opened Sales
  import opened ProductSearch

  // ---------------------------------------------------------------------------
  // POST /transactions

  /** The handler's answer: 201 with the new transaction, or one of the error responses. */
  datatype Response = Created(transaction: Record) | Rejected(error: SaleError)

  /** The product collection, or none if the document has no such collection. */
  function Products(d: Document): seq<Record> {
    if "products" in d then d["products"] else []
  }

  /** The document with its product collection replaced, when it has one. */
  function WithProducts(d: Document, products: seq<Record>): Document {
    if "products" in d then d["products" := products] else d
  }

  /** The transaction collection, or none if the document has no such collection. */
  function Transactions(d: Document): seq<Record> {
    if "transactions" in d then d["transactions"] else []
  }

  /** One entry of the transaction's `items`. */
  function ItemValue(item: LineItem): (v: Value)
    ensures v.Obj? && v.fields.Keys == {"productId", "name", "priceAtSale", "quantity"}
    ensures v.fields["priceAtSale"] == Num(item.priceAtSale) && v.fields["quantity"] == Num(item.quantity)
  {
    Obj(map["productId" := item.productId, "name" := item.name,
            "priceAtSale" := Num(item.priceAtSale), "quantity" := Num(item.quantity)])
  }

  /** `processedItems` as stored: one object per item, in order. */
  function ItemValues(items: seq<LineItem>): (vs: seq<Value>)
    ensures |vs| == |items|
    ensures forall k :: 0 <= k < |items| ==> vs[k] == ItemValue(items[k])
  {
    if |items| == 0 then [] else [ItemValue(items[0])] + ItemValues(items[1..])
  }

  /** The transaction record the handler stores and returns. */
  function TxRecord(id: Value, date: string, userId: Value, paymentMethod: Value, totalAmount: int,
                    items: seq<LineItem>): (r: Record)
    ensures r.Keys == {"id", "date", "userId", "paymentMethod", "totalAmount", "items"}
    ensures Field(r, "userId") == userId
    ensures Falsy(paymentMethod) ==> Field(r, "paymentMethod") == Str("cash")
    ensures !Falsy(paymentMethod) ==> Field(r, "paymentMethod") == paymentMethod
    ensures Field(r, "totalAmount") == Num(totalAmount)
    ensures Field(r, "items").Arr? && |Field(r, "items").elems| == |items|
    ensures forall k :: 0 <= k < |items| ==> Field(r, "items").elems[k] == ItemValue(items[k])
  {
    map["id" := id, "date" := Str(date), "userId" := userId,
        "paymentMethod" := (if Falsy(paymentMethod) then Str("cash") else paymentMethod),
        "totalAmount" := Num(totalAmount),
        "items" := Arr(ItemValues(items))]
  }

  /** The store after `update('products', p.id, { stock: p.stock - quantity })` on the product at `k`. */
  lemma StockUpdateIsDeduct(before: Document, after: Document, id: Value, updates: Record, k: nat, quantity: int)
    requires "products" in before && FindIndex(before["products"], id) == Some(k)
    requires updates == map["stock" := Num(Stock(before["products"][k]) - quantity)]
    requires FindIndex(before["products"], id).Some? ==>
               var k := FindIndex(before["products"], id).value;
               var merged := Merge(before["products"][k], updates);
               after == before["products" := before["products"][k := merged]]
    ensures after == before["products" := before["products"][k := Deduct(before["products"][k], quantity)]]
  {
    DeductIsMerge(before["products"][k], quantity);
  }

  lemma ReplaceProductsTwice(d: Document, a: seq<Record>, b: seq<Record>)
    requires "products" in d
    ensures "products" in WithProducts(d, a)
    ensures WithProducts(d, a)["products" := b] == WithProducts(d, b)
  {
  }

  /** An accepted line `i` takes the loop's document from the run after `i` lines to the run after `i + 1`. */
  lemma SaleAdvances(data0: Document, products0: seq<Record>, lines: seq<SaleLine>, i: nat,
                     before: Document, after: Document, item: LineItem)
    requires i < |lines|
    requires RunPrefix(products0, lines, i).failure.None?
    requires Products(before) == RunPrefix(products0, lines, i).products
    requires before == WithProducts(data0, RunPrefix(products0, lines, i).products)
    requires Step(Products(before), lines[i]).Success?
    requires Step(Products(before), lines[i]).value.1 == item
    requires "products" in before && after == before["products" := Step(Products(before), lines[i]).value.0]
    ensures RunPrefix(products0, lines, i + 1).failure.None?
    ensures RunPrefix(products0, lines, i + 1).items == RunPrefix(products0, lines, i).items + [item]
    ensures Products(after) == RunPrefix(products0, lines, i + 1).products
    ensures after == WithProducts(data0, RunPrefix(products0, lines, i + 1).products)
  {
    var next := Step(Products(before), lines[i]).value.0;
    RunGoesOn(products0, lines, i, next, item);
    ReplaceProductsTwice(data0, RunPrefix(products0, lines, i).products, next);
  }

  /** `items` absent, null or empty: the request is refused before anything is read. */
  predicate NoItems(items: Option<seq<SaleLine>>) {
    items.None? || |items.value| == 0
  }

  /**
   * One pass of the handler's loop body on the live store: re-read the product the line names,
   * refuse if it is missing or short of stock, otherwise deduct the quantity through `update`.
   */
  method SellLine(db: JsonDb, line: SaleLine) returns (outcome: Result<LineItem, SaleError>)
    modifies db
    ensures match Step(Products(old(db.data)), line)
            case Failure(e) =>
              outcome == Failure(e) && db.data == old(db.data) && db.Saved == old(db.Saved)
            case Success((next, item)) =>
              && outcome == Success(item)
              && "products" in old(db.data)
              && db.data == old(db.data)["products" := next]
              && db.Saved == Some(db.data)
  {
    var product := db.FindById("products", line.id);
    if product.None? {
      return Failure(ProductNotFound(line.id));
    }
    var p := product.value;
    ghost var k := FindIndex(db.data["products"], line.id).value;
    if Stock(p) < line.quantity {
      return Failure(InsufficientStock(Field(p, "name")));
    }
    var updates := map["stock" := Num(Stock(p) - line.quantity)];
    ghost var before := db.data;
    var _ := db.Update("products", Field(p, "id"), updates);
    StockUpdateIsDeduct(before, db.data, Field(p, "id"), updates, k, line.quantity);
    outcome := Success(LineItem(Field(p, "id"), Field(p, "name"), Price(p), line.quantity));
  }

  /**
   * The handler's loop over the lines, in request order: each line re-reads its product, is
   * refused if the product is missing or short of stock, and otherwise deducts at once. A refusal
   * stops the loop and leaves earlier deductions in place.
   */
  method SellLines(db: JsonDb, lines: seq<SaleLine>) returns (processed: seq<LineItem>, totalAmount: int, failure: Option<SaleError>)
    modifies db
    ensures var run := RunLines(Products(old(db.data)), lines);
            && failure == run.failure
            && db.data == WithProducts(old(db.data), run.products)
            && (failure.None? ==> processed == run.items && totalAmount == Total(run.items))
    ensures db.data != old(db.data) ==> db.Saved == Some(db.data)
  {
    ghost var products0 := Products(db.data);
    ghost var data0 := db.data;
    totalAmount := 0;
    processed := [];
    var i := 0;
    while i < |lines|
      invariant 0 <= i <= |lines|
      invariant RunPrefix(products0, lines, i).failure.None?
      invariant processed == RunPrefix(products0, lines, i).items
      invariant totalAmount == Total(processed)
      invariant Products(db.data) == RunPrefix(products0, lines, i).products
      invariant db.data == WithProducts(data0, RunPrefix(products0, lines, i).products)
      invariant i == 0 ==> db.data == data0
      invariant i > 0 ==> db.Saved == Some(db.data)
    {
      ghost var prev := RunPrefix(products0, lines, i);
      label step:
      var outcome := SellLine(db, lines[i]);
      if outcome.Failure? {
        RunStopsAt(products0, lines, i, outcome.error);
        return processed, totalAmount, Some(outcome.error);
      }
      SaleAdvances(data0, products0, lines, i, old@step(db.data), db.data, outcome.value);
      TotalAppend(processed, outcome.value);
      processed := processed + [outcome.value];
      totalAmount := totalAmount + outcome.value.priceAtSale * outcome.value.quantity;
      i := i + 1;
    }
    failure := None;
  }

  /**
   * `POST /transactions`: refuse an absent or empty cart; otherwise sell the lines and, only if
   * every one succeeded, append and return the transaction.
   */
  method PostTransaction(db: JsonDb, items: Option<seq<SaleLine>>, userId: Value, paymentMethod: Value,
                         txId: Value, now: string) returns (r: Response)
    modifies db
    ensures NoItems(items) ==> r == Rejected(EmptyCart) && db.data == old(db.data) && db.Saved == old(db.Saved)
    ensures !NoItems(items) ==>
              var run := RunLines(Products(old(db.data)), items.value);
              && (run.failure.Some? ==>
                    && r == Rejected(run.failure.value)
                    && db.data == WithProducts(old(db.data), run.products))
              && (run.failure.None? ==>
                    var tx := TxRecord(txId, now, userId, paymentMethod, Total(run.items), run.items);
                    && r == Created(tx)
                    && db.data == WithProducts(old(db.data), run.products)
                                  ["transactions" := Transactions(old(db.data)) + [tx]]
                    && db.Saved == Some(db.data))
    ensures db.data != old(db.data) ==> db.Saved == Some(db.data)
  {
    if items.None? || |items.value| == 0 {
      return Rejected(EmptyCart);
    }
    var processed, totalAmount, failure := SellLines(db, items.value);
    if failure.Some? {
      return Rejected(failure.value);
    }
    var transaction := TxRecord(txId, now, userId, paymentMethod, totalAmount, processed);
    var _ := db.Add("transactions", transaction);
    r := Created(transaction);
  }

  // ---------------------------------------------------------------------------
  // GET /products

  /** The category filter: off when the query has no category, an empty one, or `All`; otherwise exact equality. */
  predicate InCategory(p: Record, category: Option<string>) {
    match category
    case None => true
    case Some(c) => c == "" || c == "All" || Field(p, "category") == Str(c)
  }

  /** The search filter: off when the query has no search term or an empty one. */
  predicate MatchesSearch(p: Record, search: Option<string>) {
    search.None? || search.value == "" || MatchesTerm(p, Lower(search.value))
  }

  /** The search term is present and non-empty, so every product is read by the search filter. */
  predicate Searching(search: Option<string>) {
    search.Some? && search.value != ""
  }

  /** `p => p.category === category` */
  function CategoryIs(category: string): Record -> bool {
    p => Field(p, "category") == Str(category)
  }

  /** `p => name or sku or barcode includes term` */
  function TermIn(term: string): Record -> bool {
    p => MatchesTerm(p, term)
  }

  /** The first stage: filter by category when one other than `All` is given. */
  function ByCategory(products: seq<Record>, category: Option<string>): (r: seq<Record>)
    ensures forall p :: p in r <==> p in products && InCategory(p, category)
  {
    if category.Some? && category.value != "" && category.value != "All"
    then Keep(products, CategoryIs(category.value))
    else products
  }

  /** The second stage: filter by the lowercased search term when one is given. */
  function BySearch(products: seq<Record>, search: Option<string>): (r: seq<Record>)
    ensures forall p :: p in r <==> p in products && MatchesSearch(p, search)
  {
    if Searching(search) then Keep(products, TermIn(Lower(search.value))) else products
  }

  /** `GET /products`: the category filter, then the search filter. */
  function ListProducts(products: seq<Record>, category: Option<string>, search: Option<string>): (r: seq<Record>)
    requires Searching(search) ==> forall p :: p in ByCategory(products, category) ==> SearchReads(p, Lower(search.value))
    ensures |r| <= |products|
    ensures forall p :: p in r <==> p in products && InCategory(p, category) && MatchesSearch(p, search)
  {
    BySearch(ByCategory(products, category), search)
  }

  function InCategoryFilter(category: Option<string>): Record -> bool {
    p => InCategory(p, category)
  }

  function SearchFilter(search: Option<string>): Record -> bool {
    p => MatchesSearch(p, search)
  }

  function BothFilters(category: Option<string>, search: Option<string>): Record -> bool {
    p => InCategory(p, category) && MatchesSearch(p, search)
  }

  lemma ByCategoryKeeps(products: seq<Record>, category: Option<string>)
    ensures ByCategory(products, category) == Keep(products, InCategoryFilter(category))
  {
    if category.Some? && category.value != "" && category.value != "All" {
      KeepSame(products, CategoryIs(category.value), InCategoryFilter(category));
    } else {
      KeepAll(products, InCategoryFilter(category));
    }
  }

  lemma BySearchKeeps(products: seq<Record>, search: Option<string>)
    ensures BySearch(products, search) == Keep(products, SearchFilter(search))
  {
    if Searching(search) {
      KeepSame(products, TermIn(Lower(search.value)), SearchFilter(search));
    } else {
      KeepAll(products, SearchFilter(search));
    }
  }

  /** The two filters compose as one filter with the conjunction of both predicates. */
  lemma ListProductsIsOneFilter(products: seq<Record>, category: Option<string>, search: Option<string>)
    requires Searching(search) ==> forall p :: p in ByCategory(products, category) ==> SearchReads(p, Lower(search.value))
    ensures ListProducts(products, category, search) == Keep(products, BothFilters(category, search))
  {
    ByCategoryKeeps(products, category);
    BySearchKeeps(ByCategory(products, category), search);
    KeepKeep(products, InCategoryFilter(category), SearchFilter(search), BothFilters(category, search));
  }

  /**
   * The listing keeps catalogue order: listing a catalogue made of two parts lists the first part's
   * matches, then the second's.
   */
  lemma ListProductsAppend(a: seq<Record>, b: seq<Record>, category: Option<string>, search: Option<string>)
    requires Searching(search) ==> forall p :: p in ByCategory(a + b, category) ==> SearchReads(p, Lower(search.value))
    ensures ListProducts(a + b, category, search) == ListProducts(a, category, search) + ListProducts(b, category, search)
  {
    ByCategoryAppend(a, b, category);
    ListProductsIsOneFilter(a + b, category, search);
    ListProductsIsOneFilter(a, category, search);
    ListProductsIsOneFilter(b, category, search);
    KeepAppend(a, b, BothFilters(category, search));
  }

  /** The category stage works product by product, so it distributes over concatenation. */
  lemma ByCategoryAppend(a: seq<Record>, b: seq<Record>, category: Option<string>)
    ensures ByCategory(a + b, category) == ByCategory(a, category) + ByCategory(b, category)
  {
    if category.Some? && category.value != "" && category.value != "All" {
      KeepAppend(a, b, CategoryIs(category.value));
    }
  }

  /** The search term's case does not matter: two terms that lowercase alike give the same listing, e.g. "MILK" and "milk". */
  lemma ListProductsIgnoresTermCase(products: seq<Record>, category: Option<string>, term: string, other: string)
    requires Lower(term) == Lower(other)
    requires term != "" ==> forall p :: p in ByCategory(products, category) ==> SearchReads(p, Lower(term))
    ensures ListProducts(products, category, Some(term)) == ListProducts(products, category, Some(other))
  {
    assert |term| == |Lower(term)| == |other|;
  }

  // ---------------------------------------------------------------------------
  // POST /products

  /** `POST /products`: the body with a fresh id (any client-supplied id is overwritten), appended and returned. */
  method CreateProduct(db: JsonDb, body: Record, freshId: Value) returns (r: Record)
    modifies db
    ensures r == body["id" := freshId]
    ensures db.data == old(db.data)["products" := Products(old(db.data)) + [r]]
    ensures db.Saved == Some(db.data)
  {
    var newProduct := body["id" := freshId];
    r := db.Add("products", newProduct);
  }

  /** The created product carries the fresh id and every other field of the body. */
  lemma CreatedProductFields(body: Record, freshId: Value)
    ensures Field(body["id" := freshId], "id") == freshId
    ensures forall k :: k != "id" ==> Field(body["id" := freshId], k) == Field(body, k)
  {
  }

  /** When the fresh id is not in use, `findById` on the new list returns the created product. */
  lemma {:induction false} CreatedProductIsFound(products: seq<Record>, created: Record)
    requires forall j :: 0 <= j < |products| ==> !HasId(products[j], Field(created, "id"))
    ensures Find(products + [created], Field(created, "id")) == Some(created)
  {
    var list := products + [created];
    var id := Field(created, "id");
    FindIndexIsFirst(list, id);
    assert HasId(list[|products|], id);
  }
}
