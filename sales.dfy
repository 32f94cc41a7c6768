/**
 * What `POST /transactions` does to the product collection, stated as a function of the
 * products and the request's lines: lines are processed in request order, each one against
 * the stock as earlier lines left it, and the first failing line stops the run without
 * undoing earlier deductions.
 */
module Sales {
  import opened Wrappers
  import opened Json
  import opened Db

  /** One element of the request's `items`: `{ id, quantity }`. */
  datatype SaleLine = SaleLine(id: Value, quantity: int)

  /** One element of the transaction's `items`: `{ productId, name, priceAtSale, quantity }`. */
  datatype LineItem = LineItem(productId: Value, name: Value, priceAtSale: int, quantity: int)

  /** The handler's error responses: 400 "No items", 404 "Product not found", 400 "Insufficient stock". */
  datatype SaleError = EmptyCart | ProductNotFound(id: Value) | InsufficientStock(name: Value)

  function Stock(p: Record): int { NumField(p, "stock") }

  function Price(p: Record): int { NumField(p, "price") }

  /** `p` after `db.update('products', p.id, { stock: p.stock - quantity })` (see `DeductIsMerge`). */
  function Deduct(p: Record, quantity: int): Record {
    p["stock" := Num(Stock(p) - quantity)]
  }

  /** Merging the update object `{ stock: p.stock - quantity }` is `Deduct`. */
  lemma DeductIsMerge(p: Record, quantity: int)
    ensures Merge(p, map["stock" := Num(Stock(p) - quantity)]) == Deduct(p, quantity)
  {
  }

  /** One pass of the handler's loop body on the current product list. */
  function Step(products: seq<Record>, line: SaleLine): Result<(seq<Record>, LineItem), SaleError> {
    match FindIndex(products, line.id)
    case None => Failure(ProductNotFound(line.id))
    case Some(k) =>
      var p := products[k];
      if Stock(p) < line.quantity then Failure(InsufficientStock(Field(p, "name")))
      else Success((products[k := Deduct(p, line.quantity)],
                    LineItem(Field(p, "id"), Field(p, "name"), Price(p), line.quantity)))
  }

  /** The state of the loop: current products, processed items, and the error that stopped it, if any. */
  datatype Run = Run(products: seq<Record>, items: seq<LineItem>, failure: Option<SaleError>)

  /** The loop run over the first `n` lines, from the products as they were before the request. */
  function RunPrefix(products: seq<Record>, lines: seq<SaleLine>, n: nat): Run
    requires n <= |lines|
  {
    if n == 0 then Run(products, [], None)
    else
      var prev := RunPrefix(products, lines, n - 1);
      if prev.failure.Some? then prev
      else match Step(prev.products, lines[n - 1])
        case Failure(e) => Run(prev.products, prev.items, Some(e))
        case Success((next, item)) => Run(next, prev.items + [item], None)
  }

  /** The loop run over all lines. */
  function RunLines(products: seq<Record>, lines: seq<SaleLine>): Run {
    RunPrefix(products, lines, |lines|)
  }

  /** `totalAmount`: the sum of `priceAtSale * quantity` over the items, accumulated in order. */
  function Total(items: seq<LineItem>): int {
    if |items| == 0 then 0
    else Total(items[..|items| - 1]) + items[|items| - 1].priceAtSale * items[|items| - 1].quantity
  }

  /** The running total grows by each appended item's `priceAtSale * quantity`. */
  lemma TotalAppend(items: seq<LineItem>, item: LineItem)
    ensures Total(items + [item]) == Total(items) + item.priceAtSale * item.quantity
  {
    assert (items + [item])[..|items|] == items;
  }

  /** One of the first `n` lines names `id`. */
  predicate Named(lines: seq<SaleLine>, n: nat, id: Value)
    requires n <= |lines|
  {
    n > 0 && (Named(lines, n - 1, id) || lines[n - 1].id == id)
  }

  /** The total quantity the first `n` lines ask of product `id`. */
  function Demand(lines: seq<SaleLine>, n: nat, id: Value): int
    requires n <= |lines|
  {
    if n == 0 then 0
    else Demand(lines, n - 1, id) + (if lines[n - 1].id == id then lines[n - 1].quantity else 0)
  }

  /** `q` is `p`, or `p` with nothing but a non-negative numeric stock put in. */
  predicate SameButStock(p: Record, q: Record) {
    q == p || (Field(q, "stock").Num? && Field(q, "stock").n >= 0 && q == p["stock" := Field(q, "stock")])
  }

  /** `j` is the first product carrying its id: the one `findById` and `update` reach. */
  predicate FirstOfItsId(products: seq<Record>, j: int)
    requires 0 <= j < |products|
  {
    FindIndex(products, Field(products[j], "id")) == Some(j)
  }

  // ---------------------------------------------------------------------------
  // Small facts about the definitions

  lemma {:induction false} DemandUnnamed(lines: seq<SaleLine>, n: nat, id: Value)
    requires n <= |lines|
    requires !Named(lines, n, id)
    ensures Demand(lines, n, id) == 0
  {
    if n > 0 {
      DemandUnnamed(lines, n - 1, id);
    }
  }

  lemma SameButStockTrans(p: Record, q: Record, r: Record)
    requires SameButStock(p, q) && SameButStock(q, r)
    ensures SameButStock(p, r)
  {
    if r != q && q != p {
      assert r == p["stock" := Field(r, "stock")];
    }
  }

  // ---------------------------------------------------------------------------
  // Properties of the run

  /** Once a line has failed, later lines change nothing: processing stops at the failing line. */
  lemma {:induction false} FailureSticks(products: seq<Record>, lines: seq<SaleLine>, m: nat, n: nat)
    requires m <= n <= |lines|
    requires RunPrefix(products, lines, m).failure.Some?
    ensures RunPrefix(products, lines, n) == RunPrefix(products, lines, m)
  {
    if m < n {
      FailureSticks(products, lines, m, n - 1);
    }
  }

  /** Whatever the outcome, the product list keeps its length and every product its id. */
  lemma {:induction false} RunKeepsIds(products: seq<Record>, lines: seq<SaleLine>, n: nat)
    requires n <= |lines|
    ensures |RunPrefix(products, lines, n).products| == |products|
    ensures forall j :: 0 <= j < |products| ==>
              Field(RunPrefix(products, lines, n).products[j], "id") == Field(products[j], "id")
  {
    if n > 0 {
      RunKeepsIds(products, lines, n - 1);
    }
  }

  /**
   * Whatever the outcome, every product is either untouched or differs only in a stock that is
   * a non-negative number: a deduction never makes stock negative.
   */
  lemma {:induction false} RunChangesOnlyStock(products: seq<Record>, lines: seq<SaleLine>, n: nat)
    requires n <= |lines|
    ensures |RunPrefix(products, lines, n).products| == |products|
    ensures forall j :: 0 <= j < |products| ==>
              SameButStock(products[j], RunPrefix(products, lines, n).products[j])
  {
    RunKeepsIds(products, lines, n);
    if n > 0 {
      var prev := RunPrefix(products, lines, n - 1);
      RunChangesOnlyStock(products, lines, n - 1);
      if prev.failure.None? {
        match FindIndex(prev.products, lines[n - 1].id)
        case None =>
        case Some(k) =>
          var p := prev.products[k];
          if Stock(p) >= lines[n - 1].quantity {
            var next := prev.products[k := Deduct(p, lines[n - 1].quantity)];
            assert SameButStock(p, next[k]);
            SameButStockTrans(products[k], p, next[k]);
          }
      }
    }
  }

  /** Products that no line names are left exactly as they were, whether the sale succeeds or not. */
  lemma {:induction false} RunLeavesUnnamedAlone(products: seq<Record>, lines: seq<SaleLine>, n: nat, j: nat)
    requires n <= |lines| && j < |products|
    requires !Named(lines, n, Field(products[j], "id"))
    ensures j < |RunPrefix(products, lines, n).products|
    ensures RunPrefix(products, lines, n).products[j] == products[j]
  {
    RunKeepsIds(products, lines, n);
    if n > 0 {
      RunLeavesUnnamedAlone(products, lines, n - 1, j);
      RunKeepsIds(products, lines, n - 1);
    }
  }

  /** What a successful run over the first `n` lines leaves at position `j`. */
  function DeductedAt(products: seq<Record>, lines: seq<SaleLine>, n: nat, j: nat): Record
    requires n <= |lines| && j < |products|
  {
    var id := Field(products[j], "id");
    if FirstOfItsId(products, j) && Named(lines, n, id)
    then products[j]["stock" := Num(Stock(products[j]) - Demand(lines, n, id))]
    else products[j]
  }

  /** Line `n - 1` of a successful run deducted its quantity from the first product with its id. */
  lemma LastStepOfSuccess(products: seq<Record>, lines: seq<SaleLine>, n: nat)
    requires 0 < n <= |lines|
    requires RunPrefix(products, lines, n).failure.None?
    ensures RunPrefix(products, lines, n - 1).failure.None?
    ensures FindIndex(products, lines[n - 1].id).Some?
    ensures var prev := RunPrefix(products, lines, n - 1).products;
            var k := FindIndex(products, lines[n - 1].id).value;
            && |prev| == |products|
            && Stock(prev[k]) >= lines[n - 1].quantity
            && RunPrefix(products, lines, n).products == prev[k := Deduct(prev[k], lines[n - 1].quantity)]
  {
    RunKeepsIds(products, lines, n - 1);
    FindIndexSameIds(RunPrefix(products, lines, n - 1).products, products, lines[n - 1].id);
  }

  /** `DeductedAt` for a product that is the first with its id and is named. */
  lemma DeductedAtNamed(products: seq<Record>, lines: seq<SaleLine>, n: nat, j: nat)
    requires n <= |lines| && j < |products|
    requires FirstOfItsId(products, j) && Named(lines, n, Field(products[j], "id"))
    ensures DeductedAt(products, lines, n, j)
            == products[j]["stock" := Num(Stock(products[j]) - Demand(lines, n, Field(products[j], "id")))]
  {
  }

  /** `DeductedAt` for a product no line names. */
  lemma DeductedAtUnnamed(products: seq<Record>, lines: seq<SaleLine>, n: nat, j: nat)
    requires n <= |lines| && j < |products|
    requires !Named(lines, n, Field(products[j], "id"))
    ensures DeductedAt(products, lines, n, j) == products[j]
    ensures Demand(lines, n, Field(products[j], "id")) == 0
  {
    DemandUnnamed(lines, n, Field(products[j], "id"));
  }

  /** The product `FindIndex` reaches is the first carrying its id. */
  lemma FoundIsFirst(products: seq<Record>, id: Value)
    requires FindIndex(products, id).Some?
    ensures FirstOfItsId(products, FindIndex(products, id).value)
    ensures Field(products[FindIndex(products, id).value], "id") == id
  {
  }

  lemma DeductRestocked(r: Record, before: Record, after: Record, d1: int, d2: int, q: int)
    requires before == r["stock" := Num(Stock(r) - d1)]
    requires after == r["stock" := Num(Stock(r) - d2)]
    requires d2 == d1 + q
    ensures Deduct(before, q) == after
  {
  }

  lemma DeductFresh(r: Record, after: Record, d: int, q: int)
    requires after == r["stock" := Num(Stock(r) - d)]
    requires d == q
    ensures Deduct(r, q) == after
  {
  }

  /** The product line `n - 1` names: its stock drops by that line's quantity on top of the earlier demand. */
  lemma DeductedAtTarget(products: seq<Record>, lines: seq<SaleLine>, n: nat, j: nat)
    requires 0 < n <= |lines| && j < |products|
    requires FirstOfItsId(products, j) && Field(products[j], "id") == lines[n - 1].id
    ensures Deduct(DeductedAt(products, lines, n - 1, j), lines[n - 1].quantity) == DeductedAt(products, lines, n, j)
  {
    var id := Field(products[j], "id");
    var q := lines[n - 1].quantity;
    assert Demand(lines, n, id) == Demand(lines, n - 1, id) + q;
    DeductedAtNamed(products, lines, n, j);
    if Named(lines, n - 1, id) {
      DeductedAtNamed(products, lines, n - 1, j);
      DeductRestocked(products[j], DeductedAt(products, lines, n - 1, j), DeductedAt(products, lines, n, j),
                      Demand(lines, n - 1, id), Demand(lines, n, id), q);
    } else {
      DeductedAtUnnamed(products, lines, n - 1, j);
      DeductFresh(products[j], DeductedAt(products, lines, n, j), Demand(lines, n, id), q);
    }
  }

  /** Any other product: what the earlier lines left it is what all `n` lines leave it. */
  lemma DeductedAwayFromTarget(products: seq<Record>, lines: seq<SaleLine>, n: nat, j: nat, k: nat)
    requires 0 < n <= |lines| && j < |products| && k < |products| && j != k
    requires FirstOfItsId(products, k) && Field(products[k], "id") == lines[n - 1].id
    ensures DeductedAt(products, lines, n - 1, j) == DeductedAt(products, lines, n, j)
  {
    var id := Field(products[j], "id");
    if FirstOfItsId(products, j) {
      assert id != lines[n - 1].id;
      assert Named(lines, n, id) == Named(lines, n - 1, id);
      assert Demand(lines, n, id) == Demand(lines, n - 1, id);
    }
  }

  lemma {:induction false} RunSuccessDeductsAt(products: seq<Record>, lines: seq<SaleLine>, n: nat, j: nat)
    requires n <= |lines| && j < |products|
    requires RunPrefix(products, lines, n).failure.None?
    ensures j < |RunPrefix(products, lines, n).products|
    ensures RunPrefix(products, lines, n).products[j] == DeductedAt(products, lines, n, j)
  {
    RunKeepsIds(products, lines, n);
    if n > 0 {
      LastStepOfSuccess(products, lines, n);
      RunSuccessDeductsAt(products, lines, n - 1, j);
      var k := FindIndex(products, lines[n - 1].id).value;
      FoundIsFirst(products, lines[n - 1].id);
      if j == k {
        DeductedAtTarget(products, lines, n, j);
      } else {
        DeductedAwayFromTarget(products, lines, n, j, k);
      }
    }
  }

  /**
   * On success every product keeps its position; the first product carrying a named id has
   * its stock lowered by the whole demand for that id, and every other product is unchanged.
   */
  lemma RunSuccessDeducts(products: seq<Record>, lines: seq<SaleLine>)
    requires RunLines(products, lines).failure.None?
    ensures |RunLines(products, lines).products| == |products|
    ensures forall j :: 0 <= j < |products| ==>
              var id := Field(products[j], "id");
              RunLines(products, lines).products[j] ==
                if FirstOfItsId(products, j) && Named(lines, |lines|, id)
                then products[j]["stock" := Num(Stock(products[j]) - Demand(lines, |lines|, id))]
                else products[j]
  {
    RunKeepsIds(products, lines, |lines|);
    forall j | 0 <= j < |products|
      ensures RunLines(products, lines).products[j] == DeductedAt(products, lines, |lines|, j)
    {
      RunSuccessDeductsAt(products, lines, |lines|, j);
    }
  }

  /** A failed run ends at some line `k`: lines before it all succeeded, their deductions remain, and line `k` failed. */
  lemma {:induction false} RunStopsAtFailingLine(products: seq<Record>, lines: seq<SaleLine>, n: nat)
    requires n <= |lines|
    requires RunPrefix(products, lines, n).failure.Some?
    ensures exists k :: 0 <= k < n
              && RunPrefix(products, lines, k).failure.None?
              && RunPrefix(products, lines, n).products == RunPrefix(products, lines, k).products
              && Step(RunPrefix(products, lines, k).products, lines[k])
                 == Failure(RunPrefix(products, lines, n).failure.value)
  {
    if RunPrefix(products, lines, n - 1).failure.Some? {
      RunStopsAtFailingLine(products, lines, n - 1);
    } else {
      assert RunPrefix(products, lines, n - 1).failure.None?;
    }
  }

  /** A product that differs at most in stock keeps its id, name and price. */
  lemma SameButStockKeeps(p: Record, q: Record)
    requires SameButStock(p, q)
    ensures Field(q, "id") == Field(p, "id") && Field(q, "name") == Field(p, "name") && Price(q) == Price(p)
  {
  }

  /** On success there is one item per line. */
  lemma {:induction false} RunItemsCount(products: seq<Record>, lines: seq<SaleLine>, n: nat)
    requires n <= |lines|
    requires RunPrefix(products, lines, n).failure.None?
    ensures |RunPrefix(products, lines, n).items| == n
  {
    if n > 0 {
      RunItemsCount(products, lines, n - 1);
    }
  }

  /** A successful line appends one item: the product it names, as it was before the request. */
  lemma RunLastItem(products: seq<Record>, lines: seq<SaleLine>, n: nat)
    requires 0 < n <= |lines|
    requires RunPrefix(products, lines, n).failure.None?
    ensures FindIndex(products, lines[n - 1].id).Some?
    ensures var p := products[FindIndex(products, lines[n - 1].id).value];
            RunPrefix(products, lines, n).items
            == RunPrefix(products, lines, n - 1).items + [LineItem(lines[n - 1].id, Field(p, "name"), Price(p), lines[n - 1].quantity)]
  {
    var prev := RunPrefix(products, lines, n - 1);
    var line := lines[n - 1];
    RunChangesOnlyStock(products, lines, n - 1);
    RunKeepsIds(products, lines, n - 1);
    FindIndexSameIds(prev.products, products, line.id);
    var i := FindIndex(products, line.id).value;
    var p := prev.products[i];
    SameButStockKeeps(products[i], p);
    var item := LineItem(Field(p, "id"), Field(p, "name"), Price(p), line.quantity);
    assert Step(prev.products, line) == Success((prev.products[i := Deduct(p, line.quantity)], item));
  }

  /** Item `k` of a successful run snapshots the product line `k` names, as it was before the request. */
  lemma {:induction false} RunItemAt(products: seq<Record>, lines: seq<SaleLine>, n: nat, k: nat)
    requires k < n <= |lines|
    requires RunPrefix(products, lines, n).failure.None?
    ensures k < |RunPrefix(products, lines, n).items|
    ensures FindIndex(products, lines[k].id).Some?
    ensures var p := products[FindIndex(products, lines[k].id).value];
            RunPrefix(products, lines, n).items[k] == LineItem(lines[k].id, Field(p, "name"), Price(p), lines[k].quantity)
  {
    RunLastItem(products, lines, n);
    RunItemsCount(products, lines, n - 1);
    if k < n - 1 {
      LastStepOfSuccess(products, lines, n);
      RunItemAt(products, lines, n - 1, k);
    }
  }

  /**
   * On success there is one item per line, in request order, and each snapshots the product the
   * line names: its id and name, and `priceAtSale` equal to its price when the line was processed
   * (a sale never changes prices, so this is the price before the request).
   */
  lemma RunItemsFollowRequest(products: seq<Record>, lines: seq<SaleLine>)
    requires RunLines(products, lines).failure.None?
    ensures |RunLines(products, lines).items| == |lines|
    ensures forall k :: 0 <= k < |lines| ==>
              && FindIndex(products, lines[k].id).Some?
              && var p := products[FindIndex(products, lines[k].id).value];
                 RunLines(products, lines).items[k] == LineItem(lines[k].id, Field(p, "name"), Price(p), lines[k].quantity)
  {
    RunItemsCount(products, lines, |lines|);
    forall k | 0 <= k < |lines|
      ensures FindIndex(products, lines[k].id).Some?
      ensures var p := products[FindIndex(products, lines[k].id).value];
              RunLines(products, lines).items[k] == LineItem(lines[k].id, Field(p, "name"), Price(p), lines[k].quantity)
    {
      RunItemAt(products, lines, |lines|, k);
    }
  }

  /** Line `i` is refused: the run ends there, with the products and items the earlier lines left. */
  lemma RunStopsAt(products: seq<Record>, lines: seq<SaleLine>, i: nat, e: SaleError)
    requires i < |lines|
    requires RunPrefix(products, lines, i).failure.None?
    requires Step(RunPrefix(products, lines, i).products, lines[i]) == Failure(e)
    ensures RunLines(products, lines)
            == Run(RunPrefix(products, lines, i).products, RunPrefix(products, lines, i).items, Some(e))
  {
    FailureSticks(products, lines, i + 1, |lines|);
  }

  /** Line `i` is accepted: the run goes on from the products and items its step produced. */
  lemma RunGoesOn(products: seq<Record>, lines: seq<SaleLine>, i: nat, next: seq<Record>, item: LineItem)
    requires i < |lines|
    requires RunPrefix(products, lines, i).failure.None?
    requires Step(RunPrefix(products, lines, i).products, lines[i]) == Success((next, item))
    ensures RunPrefix(products, lines, i + 1) == Run(next, RunPrefix(products, lines, i).items + [item], None)
  {
  }

  /** Line `i` names no product: the run stops there, with the stock the earlier lines left. */
  lemma RunStopsOnMissing(products: seq<Record>, lines: seq<SaleLine>, i: nat)
    requires i < |lines|
    requires RunPrefix(products, lines, i).failure.None?
    requires FindIndex(RunPrefix(products, lines, i).products, lines[i].id).None?
    ensures RunLines(products, lines).failure == Some(ProductNotFound(lines[i].id))
    ensures RunLines(products, lines).products == RunPrefix(products, lines, i).products
  {
    FailureSticks(products, lines, i + 1, |lines|);
  }

  /** Line `i` asks more than the current stock: the run stops there, with the stock the earlier lines left. */
  lemma RunStopsOnShortage(products: seq<Record>, lines: seq<SaleLine>, i: nat, k: nat)
    requires i < |lines|
    requires RunPrefix(products, lines, i).failure.None?
    requires FindIndex(RunPrefix(products, lines, i).products, lines[i].id) == Some(k)
    requires Stock(RunPrefix(products, lines, i).products[k]) < lines[i].quantity
    ensures RunLines(products, lines).failure
            == Some(InsufficientStock(Field(RunPrefix(products, lines, i).products[k], "name")))
    ensures RunLines(products, lines).products == RunPrefix(products, lines, i).products
  {
    FailureSticks(products, lines, i + 1, |lines|);
  }

  /** Line `i` is covered by the current stock: it deducts and appends its item. */
  lemma RunAdvances(products: seq<Record>, lines: seq<SaleLine>, i: nat, k: nat)
    requires i < |lines|
    requires RunPrefix(products, lines, i).failure.None?
    requires FindIndex(RunPrefix(products, lines, i).products, lines[i].id) == Some(k)
    requires Stock(RunPrefix(products, lines, i).products[k]) >= lines[i].quantity
    ensures var prev := RunPrefix(products, lines, i);
            var p := prev.products[k];
            RunPrefix(products, lines, i + 1)
            == Run(prev.products[k := Deduct(p, lines[i].quantity)],
                   prev.items + [LineItem(Field(p, "id"), Field(p, "name"), Price(p), lines[i].quantity)],
                   None)
  {
  }

  /** Stock after the first `n` lines, for the first product with a given id. */
  lemma StockAfterPrefix(products: seq<Record>, lines: seq<SaleLine>, n: nat, j: nat)
    requires n <= |lines| && j < |products|
    requires RunPrefix(products, lines, n).failure.None?
    requires FirstOfItsId(products, j)
    ensures j < |RunPrefix(products, lines, n).products|
    ensures Stock(RunPrefix(products, lines, n).products[j])
            == Stock(products[j]) - Demand(lines, n, Field(products[j], "id"))
  {
    RunSuccessDeductsAt(products, lines, n, j);
    var id := Field(products[j], "id");
    if !Named(lines, n, id) {
      DemandUnnamed(lines, n, id);
    }
  }

  /** Every one of the first `n` lines names an existing product whose stock covers the whole demand of those lines for it. */
  predicate Covered(products: seq<Record>, lines: seq<SaleLine>, n: nat)
    requires n <= |lines|
  {
    forall k :: 0 <= k < n ==>
      FindIndex(products, lines[k].id).Some?
      && Demand(lines, n, lines[k].id) <= Stock(products[FindIndex(products, lines[k].id).value])
  }

  /** Line `n - 1` names a listed product whose stock covers what the first `n` lines ask of it. */
  predicate LastCovered(products: seq<Record>, lines: seq<SaleLine>, n: nat)
    requires 0 < n <= |lines|
  {
    FindIndex(products, lines[n - 1].id).Some?
    && Demand(lines, n, lines[n - 1].id) <= Stock(products[FindIndex(products, lines[n - 1].id).value])
  }

  /** A prefix of the sale succeeds when the shorter prefix did and its last line is covered. */
  lemma RunStepSucceeds(products: seq<Record>, lines: seq<SaleLine>, n: nat)
    requires 0 < n <= |lines|
    ensures RunPrefix(products, lines, n).failure.None? <==>
              RunPrefix(products, lines, n - 1).failure.None? && LastCovered(products, lines, n)
  {
    if RunPrefix(products, lines, n - 1).failure.None? {
      LineSucceedsIffCovered(products, lines, n);
    } else {
      FailureSticks(products, lines, n - 1, n);
    }
  }

  lemma CoveredStep(products: seq<Record>, lines: seq<SaleLine>, n: nat)
    requires 0 < n <= |lines| && lines[n - 1].quantity >= 0
    ensures Covered(products, lines, n) <==> Covered(products, lines, n - 1) && LastCovered(products, lines, n)
  {
  }

  /** After a successful prefix, line `n - 1` succeeds exactly when its product exists and covers the demand so far. */
  lemma LineSucceedsIffCovered(products: seq<Record>, lines: seq<SaleLine>, n: nat)
    requires 0 < n <= |lines|
    requires RunPrefix(products, lines, n - 1).failure.None?
    ensures RunPrefix(products, lines, n).failure.None? <==> LastCovered(products, lines, n)
  {
    var prev := RunPrefix(products, lines, n - 1);
    var line := lines[n - 1];
    RunKeepsIds(products, lines, n - 1);
    FindIndexSameIds(prev.products, products, line.id);
    match FindIndex(products, line.id)
    case None =>
    case Some(k) =>
      StockAfterPrefix(products, lines, n - 1, k);
      FoundIsFirst(products, line.id);
      assert Demand(lines, n, line.id) == Demand(lines, n - 1, line.id) + line.quantity;
  }

  /**
   * With non-negative quantities, a sale succeeds exactly when every line's product exists and
   * each product's stock covers the CUMULATIVE demand of all lines naming it: a product listed
   * twice is checked against the sum of its quantities, not each line alone.
   */
  lemma {:induction false} RunSucceedsIffCovered(products: seq<Record>, lines: seq<SaleLine>, n: nat)
    requires n <= |lines|
    requires forall k :: 0 <= k < n ==> lines[k].quantity >= 0
    ensures RunPrefix(products, lines, n).failure.None? <==> Covered(products, lines, n)
  {
    if n > 0 {
      RunSucceedsIffCovered(products, lines, n - 1);
      CoveredStep(products, lines, n);
      RunStepSucceeds(products, lines, n);
    }
  }

  // ---------------------------------------------------------------------------
  // Worked examples

  /** A tea at 1000 cents with 5 in stock, and a jam at 500 cents with 1 in stock. */
  function Tea(): Record {
    map["id" := Str("tea"), "name" := Str("Tea"), "price" := Num(1000), "stock" := Num(5)]
  }

  function Jam(): Record {
    map["id" := Str("jam"), "name" := Str("Jam"), "price" := Num(500), "stock" := Num(1)]
  }

  /** Selling 3 teas leaves 2 in stock and totals 3000 cents. */
  lemma ExampleSale()
    ensures RunLines([Tea(), Jam()], [SaleLine(Str("tea"), 3)])
            == Run([Tea()["stock" := Num(2)], Jam()], [LineItem(Str("tea"), Str("Tea"), 1000, 3)], None)
    ensures Total(RunLines([Tea(), Jam()], [SaleLine(Str("tea"), 3)]).items) == 3000
  {
    var lines := [SaleLine(Str("tea"), 3)];
    assert FindIndex([Tea(), Jam()], Str("tea")) == Some(0);
    assert RunPrefix([Tea(), Jam()], lines, 1).items == [LineItem(Str("tea"), Str("Tea"), 1000, 3)];
  }

  /** 3 teas then 2 jams: the jam line is refused, but the tea deduction stays. */
  lemma ExamplePartialFailure()
    ensures RunLines([Tea(), Jam()], [SaleLine(Str("tea"), 3), SaleLine(Str("jam"), 2)])
            == Run([Tea()["stock" := Num(2)], Jam()], [LineItem(Str("tea"), Str("Tea"), 1000, 3)],
                   Some(InsufficientStock(Str("Jam"))))
  {
    var lines := [SaleLine(Str("tea"), 3), SaleLine(Str("jam"), 2)];
    var after := [Tea()["stock" := Num(2)], Jam()];
    assert FindIndex([Tea(), Jam()], Str("tea")) == Some(0);
    assert RunPrefix([Tea(), Jam()], lines, 1) == Run(after, [LineItem(Str("tea"), Str("Tea"), 1000, 3)], None);
    assert !HasId(after[0], Str("jam"));
    assert FindIndexFrom(after, Str("jam"), 1) == Some(1);
    assert Step(after, lines[1]) == Failure(InsufficientStock(Str("Jam")));
  }

  /** The same tea listed twice is checked against the sum of both lines: 3 + 3 > 5 is refused at the second line. */
  lemma ExampleCumulativeDemand()
    ensures RunLines([Tea()], [SaleLine(Str("tea"), 3), SaleLine(Str("tea"), 3)])
            == Run([Tea()["stock" := Num(2)]], [LineItem(Str("tea"), Str("Tea"), 1000, 3)],
                   Some(InsufficientStock(Str("Tea"))))
  {
    var lines := [SaleLine(Str("tea"), 3), SaleLine(Str("tea"), 3)];
    var after := [Tea()["stock" := Num(2)]];
    assert FindIndex([Tea()], Str("tea")) == Some(0);
    assert RunPrefix([Tea()], lines, 1).products == after;
    assert FindIndex(after, Str("tea")) == Some(0);
  }

  /** No line's quantity is checked for sign: asking for -2 teas passes the stock check, raises the stock to 7 and totals -2000 cents. */
  lemma ExampleNegativeQuantity()
    ensures RunLines([Tea()], [SaleLine(Str("tea"), -2)])
            == Run([Tea()["stock" := Num(7)]], [LineItem(Str("tea"), Str("Tea"), 1000, -2)], None)
    ensures Total(RunLines([Tea()], [SaleLine(Str("tea"), -2)]).items) == -2000
  {
    var lines := [SaleLine(Str("tea"), -2)];
    var item := LineItem(Str("tea"), Str("Tea"), 1000, -2);
    assert FindIndex([Tea()], Str("tea")) == Some(0);
    assert Stock(Tea()) == 5 && Price(Tea()) == 1000;
    assert Field(Tea(), "id") == Str("tea") && Field(Tea(), "name") == Str("Tea");
    assert [Tea()][0 := Deduct(Tea(), -2)] == [Deduct(Tea(), -2)];
    assert Step([Tea()], lines[0]) == Success(([Deduct(Tea(), -2)], item));
    assert Deduct(Tea(), -2) == Tea()["stock" := Num(7)];
    assert RunPrefix([Tea()], lines, 1) == Run([Tea()["stock" := Num(7)]], [item], None);
    assert Total([item]) == -2000;
  }
}
