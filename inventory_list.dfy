/**
 * The inventory screen's list: the store's inventory filtered by the search term and the
 * selected category, then sorted by price, by stock, or by name.
 */
module InventoryList {
  import opened Json
  import opened Text
  import opened Seqs
  import opened Sales
  import opened ProductSearch

  /** The category chip: `All` shows everything, any other value needs an exact match. */
  predicate InSelectedCategory(item: Record, selected: string) {
    selected == "All" || Field(item, "category") == Str(selected)
  }

  /** The `filter` callback: the search, with the term lowercased once, and the category. */
  function Shown(search: string, selected: string): Record -> bool {
    item => MatchesTerm(item, Lower(search)) && InSelectedCategory(item, selected)
  }

  /**
   * The `sort` comparator as a "may come first" relation: `a.price - b.price`, `a.stock - b.stock`,
   * or `localeCompare` on names, which is taken as the given total preorder `nameLe`.
   */
  function SortOrder(sortBy: string, nameLe: (string, string) -> bool): (Record, Record) -> bool {
    if sortBy == "price" then (a: Record, b: Record) => Price(a) <= Price(b)
    else if sortBy == "stock" then (a: Record, b: Record) => Stock(a) <= Stock(b)
    else (a: Record, b: Record) => nameLe(StrField(a, "name"), StrField(b, "name"))
  }

  /** Every sort order is a total preorder, as `sort` needs. */
  lemma SortOrderIsTotal(sortBy: string, nameLe: (string, string) -> bool)
    requires TotalPreorder(nameLe)
    ensures TotalPreorder(SortOrder(sortBy, nameLe))
  {
    var le := SortOrder(sortBy, nameLe);
    if sortBy != "price" && sortBy != "stock" {
      forall a: Record, b: Record ensures le(a, b) || le(b, a) {
        assert nameLe(StrField(a, "name"), StrField(b, "name")) || nameLe(StrField(b, "name"), StrField(a, "name"));
      }
      forall a: Record, b: Record, c: Record | le(a, b) && le(b, c) ensures le(a, c) {
        assert nameLe(StrField(a, "name"), StrField(b, "name")) && nameLe(StrField(b, "name"), StrField(c, "name"));
      }
    }
  }

  /** `filteredData`: exactly the inventory items the search and the category show, in sort order. */
  function FilteredData(inventory: seq<Record>, search: string, selected: string, sortBy: string,
                        nameLe: (string, string) -> bool): (r: seq<Record>)
    requires forall k :: 0 <= k < |inventory| ==> SearchReads(inventory[k], Lower(search))
    requires TotalPreorder(nameLe)
    ensures |r| <= |inventory|
    ensures forall x :: x in r <==> x in inventory && MatchesTerm(x, Lower(search)) && InSelectedCategory(x, selected)
    ensures Sorted(r, SortOrder(sortBy, nameLe))
  {
    SortOrderIsTotal(sortBy, nameLe);
    var shown := Keep(inventory, Shown(search, selected));
    var r := SortBy(shown, SortOrder(sortBy, nameLe));
    assert forall x :: x in r <==> x in multiset(shown);
    r
  }

  /** The list holds each shown item as often as the inventory does and no other item: a permutation of the filtered inventory. */
  lemma FilteredDataCounts(inventory: seq<Record>, search: string, selected: string, sortBy: string,
                           nameLe: (string, string) -> bool)
    requires forall k :: 0 <= k < |inventory| ==> SearchReads(inventory[k], Lower(search))
    requires TotalPreorder(nameLe)
    ensures forall x :: multiset(FilteredData(inventory, search, selected, sortBy, nameLe))[x] ==
                          if Shown(search, selected)(x) then multiset(inventory)[x] else 0
  {
    KeepCount(inventory, Shown(search, selected));
  }

  /** Sorting by price lists cheaper items first. */
  lemma FilteredDataByPrice(inventory: seq<Record>, search: string, selected: string,
                            nameLe: (string, string) -> bool)
    requires forall k :: 0 <= k < |inventory| ==> SearchReads(inventory[k], Lower(search))
    requires TotalPreorder(nameLe)
    ensures var r := FilteredData(inventory, search, selected, "price", nameLe);
            forall i, j :: 0 <= i < j < |r| ==> Price(r[i]) <= Price(r[j])
  {
    var r := FilteredData(inventory, search, selected, "price", nameLe);
    assert Sorted(r, SortOrder("price", nameLe));
  }

  /** Sorting by stock lists the items with less stock first. */
  lemma FilteredDataByStock(inventory: seq<Record>, search: string, selected: string,
                            nameLe: (string, string) -> bool)
    requires forall k :: 0 <= k < |inventory| ==> SearchReads(inventory[k], Lower(search))
    requires TotalPreorder(nameLe)
    ensures var r := FilteredData(inventory, search, selected, "stock", nameLe);
            forall i, j :: 0 <= i < j < |r| ==> Stock(r[i]) <= Stock(r[j])
  {
    var r := FilteredData(inventory, search, selected, "stock", nameLe);
    assert "stock" != "price";
    assert Sorted(r, SortOrder("stock", nameLe));
  }

  /** Any other sort key orders by name. */
  lemma FilteredDataByName(inventory: seq<Record>, search: string, selected: string, sortBy: string,
                           nameLe: (string, string) -> bool)
    requires forall k :: 0 <= k < |inventory| ==> SearchReads(inventory[k], Lower(search))
    requires TotalPreorder(nameLe)
    requires sortBy != "price" && sortBy != "stock"
    ensures var r := FilteredData(inventory, search, selected, sortBy, nameLe);
            forall i, j :: 0 <= i < j < |r| ==> nameLe(StrField(r[i], "name"), StrField(r[j], "name"))
  {
    var r := FilteredData(inventory, search, selected, sortBy, nameLe);
    assert Sorted(r, SortOrder(sortBy, nameLe));
  }

  /** With the empty search and the `All` category every item is listed. */
  lemma FilteredDataShowsAll(inventory: seq<Record>, sortBy: string, nameLe: (string, string) -> bool)
    requires forall k :: 0 <= k < |inventory| ==> SearchReads(inventory[k], Lower(""))
    requires TotalPreorder(nameLe)
    ensures multiset(FilteredData(inventory, "", "All", sortBy, nameLe)) == multiset(inventory)
  {
    forall k | 0 <= k < |inventory| ensures Shown("", "All")(inventory[k]) {
      IncludesEmpty(Lower(StrField(inventory[k], "name")));
    }
    KeepAll(inventory, Shown("", "All"));
  }
}
