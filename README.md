# incash-pos: inventory and sale logic in Dafny

A model of the bookkeeping core of the incash-pos point-of-sale system, with proofs of what it
guarantees.

- **The API's record store.** `JSONDB` is a class holding named collections of id-keyed records. `get` and `findById` read from them. `add`, `update` and `remove` change them in place, and each change is followed by a save.
- **The API's handlers over the store:**
  - the sale, `POST /transactions`: lines are processed in request order, and each one re-reads its product, checks the stock and deducts at once. The first refused line stops the sale and leaves earlier deductions in place;
  - the catalogue listing, `GET /products`, with its category and search filters;
  - product creation, `POST /products`.
- **The mobile client's store (`StoreContext`):**
  - the local inventory mirror, with `addToInventory`, `updateStock` and `updateInventoryItem`;
  - the cart, with `addToCart`, `removeFromCart`, `updateCartQuantity` and `clearCart`;
  - the optimistic local `checkout`;
  - the view mode toggle.
- **The list logic of two screens:**
  - the inventory screen's filtered and sorted list;
  - the cashier screen's search, cart total, item count, barcode scan and clear-cart button.

## Data model

- **Records.** JavaScript objects are `Json.Record = map<string, Value>`. A missing property reads as `Undefined`, and the spread `{ ...r, ...updates }` is Dafny's right-biased map union (`Json.Merge`).
- **Money and quantities** are exact integers, with money in cents. A non-numeric `stock`, `price` or `quantity` reads as 0; "## Left out" says what this changes.
- **Lowercasing** is ASCII-only `Text.Lower`, and `includes` is the substring test `Text.Includes`.
- **The record store** is the class `Db.JsonDb`:
  - its field `data: map<string, seq<Record>>` is the document;
  - its ghost field `Saved` is the last document handed to `save()`.
- **The sale** is specified by the function `Sales.RunLines`, which is the handler's loop as a recursion over request prefixes. `Server.SellLines` and `Server.PostTransaction` are imperative methods over a `JsonDb`, proved against it.
- **The client store** is the class `StoreContext.Store`, with fields `inventory`, `cart` and `viewMode`. Each method assigns a field from a pure function (`CartAdd`, `CartRemove`, `CartChangeQuantity`, `CheckoutInventory`, `SetStock`, `MergeInto`, `WithNewItem`, `Toggled`), and the lemmas are stated about those functions. `Store.Valid()` is the cart invariant: distinct ids, and every quantity a number of at least 1. It holds initially, and every method keeps it.
- **Fresh values.** `uuidv4()`, `Date.now()` and `new Date().toISOString()` are parameters.

Behaviours worth knowing, all proved:

- **A sale is not atomic** (`Sales.RunStopsAtFailingLine`, `Sales.ExamplePartialFailure`). A refused line leaves the deductions of earlier lines in place.
- **Demand is cumulative** (`Sales.RunSucceedsIffCovered`, `Sales.ExampleCumulativeDemand`). A sale with non-negative quantities succeeds exactly when every product's stock covers the sum of all lines naming it.
- **Quantities are not checked for sign** (`Sales.ExampleNegativeQuantity`). A negative quantity passes the stock check, raises the stock and makes the total negative.
- **The two checkouts agree when the server accepts** (`StoreContext.CheckoutAgreesWithServer`). The client's local `checkout` floors stock at 0. When the inventory ids are distinct and the server would accept the cart, the client's result equals the server's, so the floor never bites.
- **The search predicates differ on capitals** (`ProductSearch.SearchesDifferOnCapitals`):
  - the API listing and the inventory screen compare the barcode with the *lowercased* term;
  - the cashier screen compares it with the term as typed.

  So a capitalised barcode fragment finds an item on the cashier screen and nowhere else. The two searches agree for a term without capitals (`ProductSearch.SearchesAgreeOnLowercase`).

## Model

| member | source | states |
|---|---|---|
| Json.Merge | incash-api/src/models/db.js:53 | the shallow merge `{ ...r, ...updates }`: the keys are both key sets; a property of `updates` wins; every other property keeps its value |
| Text.Lower | incash-api/src/server.js:40 | `toLowerCase` keeps the length and lowercases each character (ASCII letters only) |
| Text.Includes | incash-api/src/server.js:42-44 | `s.includes(t)` holds exactly when `t` occurs in `s` at some position |
| Text.IncludesEmpty | incash-mobile/src/screens/InventoryListScreen.js:27-30 | every string includes the empty term, so an empty search keeps every item |
| Text.IncludesLower | incash-mobile/src/screens/InventoryListScreen.js:28-29 | a substring stays a substring after lowercasing both sides |
| Text.LowerIdempotent | incash-api/src/server.js:40 | lowercasing an already lowercased term changes nothing |
| Seqs.Keep | incash-api/src/server.js:36 | `filter` keeps exactly the elements satisfying the predicate and never grows the list |
| Seqs.KeepAppend | incash-api/src/server.js:36 | `filter` distributes over concatenation, so kept elements keep their relative order |
| Seqs.FirstIndex | incash-mobile/src/screens/CashierScreen.js:75 | `find` stops at the first element satisfying the predicate, and finds nothing only when no element does |
| Seqs.SortBy | incash-mobile/src/screens/InventoryListScreen.js:33-37 | `sort` with a total-preorder comparator returns a permutation of its input, ordered by the comparator |
| Db.FindIndex | incash-api/src/models/db.js:51 | `findIndex` by id returns an in-range index of a record carrying that id |
| Db.FindIndexIsFirst | incash-api/src/models/db.js:51 | the index found is the first with that id, and nothing is found only when no record has the id |
| Db.FindIndexSameIds | incash-api/src/models/db.js:51 | only the records' ids decide what `findIndex` finds |
| Db.Find | incash-api/src/models/db.js:39 | `find` by id returns a record with that id from the list exactly when one exists |
| Db.JsonDb.constructor | incash-api/src/models/db.js:7-23 | a parsed file becomes the document; a missing file leaves the four empty collections and saves them; an unreadable file leaves the empty collections unsaved |
| Db.JsonDb.Get | incash-api/src/models/db.js:34-36 | the stored collection, or the empty list when it is absent |
| Db.JsonDb.FindById | incash-api/src/models/db.js:38-40 | the first record of the collection with that id; nothing when the collection is absent or holds no such record |
| Db.JsonDb.Add | incash-api/src/models/db.js:42-47 | creates a missing collection and appends the record at its end; every other collection is unchanged; the store is saved and the record returned |
| Db.JsonDb.Update | incash-api/src/models/db.js:49-58 | an unknown id returns nothing and changes nothing; otherwise only the first record with the id is replaced by the shallow merge, which is returned and saved |
| Db.JsonDb.Remove | incash-api/src/models/db.js:60-70 | an unknown id returns nothing and changes nothing; otherwise the first record with the id is spliced out (order kept, length one less), returned and saved |
| Sales.Deduct | incash-api/src/server.js:115 | the product with its stock lowered by the line's quantity and every other property kept (a function with no contract of its own; `DeductIsMerge` ties it to the store's merge) |
| Sales.Step | incash-api/src/server.js:106-124 | one pass of the loop body: "not found" for an unknown id, "insufficient stock" with the product's name when `stock < quantity`, otherwise the deduction at the first product with the id and the item snapshot (a function; its outcomes are stated by `RunAdvances`, `RunStopsOnMissing` and `RunStopsOnShortage`) |
| Sales.RunPrefix | incash-api/src/server.js:105-125 | the loop over the first `n` lines: products, processed items and the error that stopped it (a function; the `Run…` lemmas below state its properties) |
| Sales.RunLines | incash-api/src/server.js:105-125 | the loop over all lines (a function; `Server.SellLines` is proved to compute it) |
| Sales.Total | incash-api/src/server.js:102-124 | `totalAmount`: the sum of `priceAtSale * quantity`, accumulated in order (a function; `TotalAppend` states its step) |
| Sales.DeductIsMerge | incash-api/src/server.js:115 | the update `{ stock: product.stock - item.quantity }` merged into the product only sets its stock |
| Sales.TotalAppend | incash-api/src/server.js:124 | the running total grows by each processed item's `priceAtSale * quantity` |
| Sales.FailureSticks | incash-api/src/server.js:107-113 | once a line is refused, later lines change nothing |
| Sales.RunKeepsIds | incash-api/src/server.js:105-115 | whatever the outcome, the product list keeps its length and every product its id |
| Sales.RunChangesOnlyStock | incash-api/src/server.js:111-115 | whatever the outcome, every product is unchanged or differs only in a stock that is a non-negative number: a deduction never makes stock negative |
| Sales.RunLeavesUnnamedAlone | incash-api/src/server.js:105-115 | a product no line names is left exactly as it was, whether the sale succeeds or not |
| Sales.RunSuccessDeductsAt | incash-api/src/server.js:105-115 | after a successful run, each product's position holds its deducted record (`DeductedAt`) |
| Sales.RunSuccessDeducts | incash-api/src/server.js:105-115 | on success, the first product carrying a named id loses the whole demand for that id, and every other product is unchanged |
| Sales.StockAfterPrefix | incash-api/src/server.js:106-115 | after a successful prefix, a product's stock is its original stock minus the demand so far: each line is checked against stock already lowered by earlier lines |
| Sales.RunStopsAtFailingLine | incash-api/src/server.js:107-113 | a failed run ends at some line: the lines before it all succeeded, their deductions remain, and that line's step produced the error |
| Sales.RunStopsAt | incash-api/src/server.js:107-113 | a refused line ends the run with the products and items the earlier lines left |
| Sales.RunStopsOnMissing | incash-api/src/server.js:106-109 | a line naming no product ends the run with "not found" for its id, keeping earlier deductions |
| Sales.RunStopsOnShortage | incash-api/src/server.js:111-113 | a line asking more than the current stock ends the run with "insufficient stock" for that product's name, keeping earlier deductions |
| Sales.RunGoesOn | incash-api/src/server.js:105-125 | an accepted line continues the run from the products and item its step produced |
| Sales.RunAdvances | incash-api/src/server.js:111-124 | a covered line deducts its quantity from the product found and appends that product's snapshot |
| Sales.RunItemsCount | incash-api/src/server.js:117-122 | on success there is one item per line |
| Sales.RunLastItem | incash-api/src/server.js:117-122 | a successful line appends the snapshot of the product it names, with that product's price before the request |
| Sales.RunItemAt | incash-api/src/server.js:117-122 | item `k` of a successful run snapshots the product line `k` names |
| Sales.RunItemsFollowRequest | incash-api/src/server.js:117-122 | on success the items follow the request order, and each carries the product's id, name and price (`priceAtSale`) with the line's quantity |
| Sales.LineSucceedsIffCovered | incash-api/src/server.js:106-115 | after a successful prefix, the next line succeeds exactly when its product exists and its stock covers the cumulative demand |
| Sales.RunStepSucceeds | incash-api/src/server.js:105-115 | a prefix succeeds exactly when the shorter prefix did and its last line is covered |
| Sales.RunSucceedsIffCovered | incash-api/src/server.js:105-115 | with non-negative quantities, a sale succeeds exactly when every line's product exists and covers the total demand for it |
| Sales.ExampleSale | incash-api/src/server.js:105-125 | 3 teas from 5 leave 2 and total 3000 cents |
| Sales.ExamplePartialFailure | incash-api/src/server.js:111-115 | a refused second line leaves the first line's deduction in place |
| Sales.ExampleCumulativeDemand | incash-api/src/server.js:111-115 | the same product listed twice is checked against the sum of both lines |
| Sales.ExampleNegativeQuantity | incash-api/src/server.js:111-124 | a negative quantity is accepted, raises the stock and makes the total negative |
| Server.ItemValue | incash-api/src/server.js:117-122 | one processed item is the object `{ productId, name, priceAtSale, quantity }` |
| Server.ItemValues | incash-api/src/server.js:117-122 | `processedItems` holds one such object per item, in order |
| Server.TxRecord | incash-api/src/server.js:127-134 | the transaction has exactly the keys id, date, userId, paymentMethod, totalAmount and items; `userId` is copied; a falsy `paymentMethod` becomes "cash"; the items are in order |
| Server.StockUpdateIsDeduct | incash-api/src/server.js:115 | the store's update of the product found is the deduction of the line's quantity |
| Server.SellLine | incash-api/src/server.js:106-122 | one loop pass on the live store: it refuses (changing nothing) or deducts through `update` and saves, exactly as `Sales.Step` does |
| Server.SellLines | incash-api/src/server.js:101-125 | the loop leaves the products of `RunLines` in the store (partial deductions included), reports its error, and on success returns its items and their total |
| Server.PostTransaction | incash-api/src/server.js:94-138 | absent or empty items are refused with nothing changed; otherwise the products end as `RunLines` leaves them, and one transaction with the run's items and total is appended only when every line succeeded |
| Server.InCategory | incash-api/src/server.js:35-36 | the category test: off for an absent, empty or "All" category, otherwise exact equality (a predicate) |
| Server.MatchesSearch | incash-api/src/server.js:39-45 | the search test: off for an absent or empty term, otherwise `MatchesTerm` on the lowercased term (a predicate) |
| Server.ByCategory | incash-api/src/server.js:35-37 | the category stage keeps exactly the products passing the category test |
| Server.ByCategoryAppend | incash-api/src/server.js:36 | the category stage keeps catalogue order |
| Server.BySearch | incash-api/src/server.js:39-46 | the search stage keeps exactly the products passing the search test |
| Server.ListProducts | incash-api/src/server.js:31-49 | the listing holds exactly the products in the requested category (unless the category is absent, empty or "All") that match the lowercased search term (when one is given), and never more products than the catalogue |
| Server.ListProductsIsOneFilter | incash-api/src/server.js:35-46 | the category and search filters compose as one filter with the conjunction of both predicates |
| Server.ListProductsAppend | incash-api/src/server.js:33-48 | the listing keeps catalogue order |
| Server.ListProductsIgnoresTermCase | incash-api/src/server.js:40 | two search terms that lowercase alike give the same listing |
| Server.CreateProduct | incash-api/src/server.js:60-64 | the body gets a fresh id, overwriting any client-supplied one, and is appended to the products, saved and returned |
| Server.CreatedProductFields | incash-api/src/server.js:61 | the created product carries the fresh id and every other field of the body |
| Server.CreatedProductIsFound | incash-api/src/server.js:60-62 | when the fresh id is unused, a lookup of it finds the created product |
| ProductSearch.MatchesTerm | incash-api/src/server.js:41-44 | the listing's search for a lowercased term: lowercased name or sku contains it, or a truthy barcode contains it as stored; the inventory screen uses the same test (InventoryListScreen.js:27-29) (a predicate) |
| ProductSearch.CashierMatches | incash-mobile/src/screens/CashierScreen.js:47-51 | the cashier search: lowercased name or sku contains the lowercased term, or a truthy barcode contains the term as typed (a predicate) |
| ProductSearch.SearchReads | incash-api/src/server.js:41-44 | when the search callback evaluates without throwing: a string name, and, only when the name test fails, a string sku, and, only when that fails too, a falsy or string barcode (a predicate) |
| ProductSearch.SearchesAgreeOnLowercase | incash-mobile/src/screens/CashierScreen.js:47-51 | for a term without capitals, the cashier search and the inventory search agree |
| ProductSearch.SearchesDifferOnCapitals | incash-mobile/src/screens/CashierScreen.js:50 | a capitalised barcode fragment is found by the cashier search but not by the inventory search |
| StoreContext.ValidCart | incash-mobile/src/context/StoreContext.js:41-67 | the cart invariant the cart operations keep: distinct line ids and numeric quantities of at least 1 (a predicate) |
| StoreContext.Max | incash-mobile/src/context/StoreContext.js:62 | `Math.max` is an upper bound of both arguments and equals one of them |
| StoreContext.CartAdd | incash-mobile/src/context/StoreContext.js:41-49 | an item with no line is appended with quantity 1; an item with a line keeps the cart's length |
| StoreContext.CartAddExisting | incash-mobile/src/context/StoreContext.js:43-45 | an item already in a valid cart raises only its own line's quantity, by one |
| StoreContext.CartAddValid | incash-mobile/src/context/StoreContext.js:41-49 | `addToCart` keeps the cart invariant |
| StoreContext.CartRemove | incash-mobile/src/context/StoreContext.js:51-53 | every line with the id is gone and every other line stays |
| StoreContext.CartRemoveAppend | incash-mobile/src/context/StoreContext.js:52 | the surviving lines keep their order |
| StoreContext.CartRemoveValid | incash-mobile/src/context/StoreContext.js:51-53 | `removeFromCart` keeps the cart invariant |
| StoreContext.CartChangeQuantity | incash-mobile/src/context/StoreContext.js:59-67 | the cart never grows, and every surviving line has a positive quantity |
| StoreContext.CartChangeQuantityAppend | incash-mobile/src/context/StoreContext.js:60-66 | the surviving lines keep their order |
| StoreContext.CartChangeQuantityTarget | incash-mobile/src/context/StoreContext.js:61-66 | the line with the id stays with quantity `q + change` when that is positive, and is dropped otherwise |
| StoreContext.CartChangeQuantityOthers | incash-mobile/src/context/StoreContext.js:60-66 | lines for other ids all stay unchanged, and no other line appears |
| StoreContext.CartChangeQuantityValid | incash-mobile/src/context/StoreContext.js:59-67 | `updateCartQuantity` establishes the cart invariant from distinct ids alone |
| StoreContext.CheckoutInventory | incash-mobile/src/context/StoreContext.js:71-79 | the inventory keeps its length |
| StoreContext.CheckoutItem | incash-mobile/src/context/StoreContext.js:72-77 | an item with a cart line gets stock `max(0, stock - quantity)` and keeps its other fields; every other item is unchanged |
| StoreContext.CheckoutStockNonNegative | incash-mobile/src/context/StoreContext.js:75 | after `checkout` no stock is negative, given none was before |
| StoreContext.AsSaleLines | incash-mobile/src/context/StoreContext.js:69-81 | the sale a cart stands for: one `{ id, quantity }` line per cart line, in cart order |
| StoreContext.NamedInCart | incash-mobile/src/context/StoreContext.js:73 | a cart's sale lines name an id exactly when some cart line carries it |
| StoreContext.DemandOfCart | incash-mobile/src/context/StoreContext.js:73-75 | with distinct cart ids, the sale asks for an id exactly its cart line's quantity |
| StoreContext.SuccessCoversDemand | incash-api/src/server.js:105-115 | a sale the server accepts asks of each item no more than its stock |
| StoreContext.CheckoutAgreesAt | incash-mobile/src/context/StoreContext.js:72-77 | at each item, the client's checkout gives the server's deduction when the demand is covered |
| StoreContext.CheckoutAgreesWithServer | incash-mobile/src/context/StoreContext.js:69-81 | when the server accepts the cart, the client's optimistic checkout computes exactly the server's new product list |
| StoreContext.SetStock | incash-mobile/src/context/StoreContext.js:29-33 | `updateStock` keeps the inventory's length |
| StoreContext.SetStockItem | incash-mobile/src/context/StoreContext.js:30-32 | an item with the id gets the new stock and keeps every other field; every other item is unchanged |
| StoreContext.SetStockTwice | incash-mobile/src/context/StoreContext.js:29-33 | a second `updateStock` of the same id overrides the first |
| StoreContext.MergeInto | incash-mobile/src/context/StoreContext.js:35-39 | `updateInventoryItem` keeps the inventory's length |
| StoreContext.MergeIntoItem | incash-mobile/src/context/StoreContext.js:36-38 | an item with the id has the fields shallow-merged in; every other item is unchanged |
| StoreContext.MergeStockIsSetStock | incash-mobile/src/context/StoreContext.js:29-39 | merging just `{ stock: q }` is `updateStock` with `q` |
| StoreContext.WithNewItem | incash-mobile/src/context/StoreContext.js:23-27 | the new item comes first with the fresh id and all its other fields; the old inventory follows unchanged |
| StoreContext.NewItemIsFound | incash-mobile/src/context/StoreContext.js:25-26 | a lookup of the fresh id finds the new item |
| StoreContext.Toggled | incash-mobile/src/context/StoreContext.js:84-86 | the mode becomes "list" exactly when it was "grid", and is always "grid" or "list" |
| StoreContext.ToggleTwice | incash-mobile/src/context/StoreContext.js:84-86 | toggling twice is the identity |
| StoreContext.Store.Valid | incash-mobile/src/context/StoreContext.js:7-10 | the store's invariant: a valid cart and a view mode of "grid" or "list" (a predicate) |
| StoreContext.Store.constructor | incash-mobile/src/context/StoreContext.js:7-10 | the given inventory, an empty cart and the grid view; the invariant holds |
| StoreContext.Store.AddToInventory | incash-mobile/src/context/StoreContext.js:23-27 | the inventory becomes `WithNewItem`; the cart and view are unchanged; the invariant is kept |
| StoreContext.Store.UpdateStock | incash-mobile/src/context/StoreContext.js:29-33 | the inventory becomes `SetStock`; the rest is unchanged; the invariant is kept |
| StoreContext.Store.UpdateInventoryItem | incash-mobile/src/context/StoreContext.js:35-39 | the inventory becomes `MergeInto`; the rest is unchanged; the invariant is kept |
| StoreContext.Store.AddToCart | incash-mobile/src/context/StoreContext.js:41-49 | the cart becomes `CartAdd`; the rest is unchanged; the invariant is kept |
| StoreContext.Store.RemoveFromCart | incash-mobile/src/context/StoreContext.js:51-53 | the cart becomes `CartRemove`; the rest is unchanged; the invariant is kept |
| StoreContext.Store.ClearCart | incash-mobile/src/context/StoreContext.js:55-57 | the cart is empty; the rest is unchanged |
| StoreContext.Store.UpdateCartQuantity | incash-mobile/src/context/StoreContext.js:59-67 | the cart becomes `CartChangeQuantity`; the rest is unchanged; the invariant is kept |
| StoreContext.Store.Checkout | incash-mobile/src/context/StoreContext.js:69-81 | the inventory becomes `CheckoutInventory` of the old cart, and the cart is emptied |
| StoreContext.Store.ToggleViewMode | incash-mobile/src/context/StoreContext.js:84-86 | the view mode becomes `Toggled`; the rest is unchanged |
| InventoryList.SortOrder | incash-mobile/src/screens/InventoryListScreen.js:33-36 | the `sort` comparator as a "may come first" relation: by price, by stock, or by the name comparison (a function; `SortOrderIsTotal` states it is a total preorder) |
| InventoryList.SortOrderIsTotal | incash-mobile/src/screens/InventoryListScreen.js:33-36 | the price, stock and name comparators are each a total preorder |
| InventoryList.FilteredData | incash-mobile/src/screens/InventoryListScreen.js:26-37 | the list holds exactly the inventory items matching the lowercased search term and the selected category ("All" shows every category), is no longer than the inventory, and is sorted by the chosen key |
| InventoryList.FilteredDataCounts | incash-mobile/src/screens/InventoryListScreen.js:26-37 | the list is a permutation of the filtered inventory: each shown item occurs as often as in the inventory |
| InventoryList.FilteredDataByPrice | incash-mobile/src/screens/InventoryListScreen.js:34 | sorting by price gives non-decreasing prices |
| InventoryList.FilteredDataByStock | incash-mobile/src/screens/InventoryListScreen.js:35 | sorting by stock gives non-decreasing stock |
| InventoryList.FilteredDataByName | incash-mobile/src/screens/InventoryListScreen.js:36 | any other key orders by the name comparison |
| InventoryList.FilteredDataShowsAll | incash-mobile/src/screens/InventoryListScreen.js:26-32 | the empty search with "All" lists every inventory item |
| Cashier.FilteredItems | incash-mobile/src/screens/CashierScreen.js:47-51 | the grid holds exactly the items whose name or sku contains the term case-insensitively, or whose barcode contains the raw term |
| Cashier.FilteredItemsAppend | incash-mobile/src/screens/CashierScreen.js:47-51 | the grid keeps inventory order |
| Cashier.CartTotal | incash-mobile/src/screens/CashierScreen.js:53-55 | `cartTotal`: the sum of price times quantity over the cart lines (a function; `EmptyCartTotals` and `CartTotalAfterAdd` state its properties) |
| Cashier.TotalItemsCount | incash-mobile/src/screens/CashierScreen.js:57-59 | `totalItemsCount`: the sum of the line quantities (a function; `EmptyCartTotals`, `ItemsCountAfterAdd` and `ItemsCountAtLeastLines` state its properties) |
| Cashier.ItemsCountAtLeastLines | incash-mobile/src/screens/CashierScreen.js:57-59 | a cart whose quantities are at least 1 counts at least as many items as lines |
| Cashier.ItemsCountAfterAdd | incash-mobile/src/screens/CashierScreen.js:57-59 | adding a product to a valid cart raises the item count by exactly one |
| Cashier.CartTotalAfterAdd | incash-mobile/src/screens/CashierScreen.js:53-55 | adding a product raises the total by one unit price: that of its cart line, or of the product when it is new |
| Cashier.SumAfterAddExisting | incash-mobile/src/screens/CashierScreen.js:54 | a line-wise sum after adding a product already in the cart changes only by that line's term |
| Cashier.SumAfterAddNew | incash-mobile/src/screens/CashierScreen.js:54 | a line-wise sum after adding a new product grows by the new line's term |
| Cashier.EmptyCartTotals | incash-mobile/src/screens/CashierScreen.js:53-59 | an empty cart totals 0 and counts no items |
| Cashier.ScanMatch | incash-mobile/src/screens/CashierScreen.js:75 | the scan's `find` callback: the barcode or the sku equals the scanned code (a function; `FindScanned` states the lookup) |
| Cashier.FindScanned | incash-mobile/src/screens/CashierScreen.js:75 | the product found is the first whose barcode or sku equals the scanned code; nothing is found only when no product matches |
| Cashier.HandleScan | incash-mobile/src/screens/CashierScreen.js:74-82 | a found product is added to the cart; an unknown code leaves the cart unchanged; the inventory and view are unchanged |
| Cashier.HandleClearCart | incash-mobile/src/screens/CashierScreen.js:84-87 | nothing changes on an empty cart; otherwise the cart ends empty |

## Left out

- File I/O in `load` and `save` (incash-api/src/models/db.js:12-31) is not modelled. The stored file is a parameter of the constructor, and the ghost field `Saved` records what was handed to `save()`. A failing write is not modelled.
- Express routing, middleware and JSON plumbing are replaced by the `Response` and `SaleError` datatypes. The other routes are not part of this model: `/auth/login`, `GET /products/:id`, `PUT`/`DELETE /products/:id`, `/categories`, `GET /transactions` and `/users/current`, which picks a user at random.
- Fresh ids and timestamps (`uuidv4`, `Date.now`, `new Date().toISOString()`) are parameters.
- Concurrent requests racing on the same product are not modelled. Each request runs alone.
- JavaScript numbers are exact integers. Floating point, NaN, `toFixed` and the cashier screen's tax display are not modelled.
- A non-numeric `stock`, `price` or `quantity` reads as 0, and a non-string name or sku reads as "". This changes the sale for products whose stock is not a number:
  - a product with no numeric stock (absent, or a non-numeric string) makes the source's check `product.stock < item.quantity` compare NaN, which is false, so the source sells the line and stores NaN as the stock; the model refuses any positive quantity for it with "insufficient stock";
  - a numeric string stock such as "5" is converted to 5 by the source; the model reads it as 0.
- Sales.RunChangesOnlyStock: its "non-negative numeric stock" after a deduction holds for the model's reading of stock; in the source a product without a numeric stock can be left with NaN.
- Ids are compared structurally (`Json.HasId`). JavaScript's `===` compares object-valued ids by reference; the model takes ids to be primitives (strings or numbers), as every id the system creates is.
- Lowercasing covers ASCII letters only. Unicode case mapping is not modelled.
- `localeCompare` is the abstract comparator `nameLe`, which is required to be a total preorder.
- Db.JsonDb.Update: requires the collection to exist, because `list.findIndex` on an absent collection throws.
- Db.JsonDb.Remove: requires the collection to exist, for the same reason.
- Server.ListProducts: when a search term is given, requires `SearchReads` of every product that passed the category filter, because the source's callback throws on the others; it reads `sku` only when the name test fails and the barcode only when both fail (`||` short-circuits), and products the category filter removed are never read. An array-valued barcode, whose `includes` tests elements, is outside the model.
- Server.PostTransaction: a non-array `items` body and line quantities that are not numbers are not modelled. `items` is absent or a sequence of `{ id, quantity }` lines.
- InventoryList.FilteredData: requires `SearchReads` of every inventory item, for the same reason as `ListProducts`, with the same short-circuit reading; here the search test runs before the category test, so every item is read. The stability of `sort` is not proved: items that tie under the comparator may appear in any order.
- Cashier.FilteredItems: requires `SearchReads` of every inventory item for the lowercased term, for the same reason and with the same short-circuit reading as `ListProducts`; its barcode test uses the raw term, but what it reads is the same.
- StoreContext.Store: React's setter and closure semantics are not modelled. Each operation updates the state at once, and `checkout` reads the cart as it is at the call.
- The signed-in `user` with `login` and `logout` is not modelled.
- Cashier.HandleScan: the `alert` for an unknown code and the closing of the scanner are not modelled.
- Cashier.CartTotal and Cashier.TotalItemsCount are stated through lemmas about adding a product and the empty cart. Their exact values for an arbitrary cart are left to their definitions as left folds.
