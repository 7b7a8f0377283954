/**
 * The raw-material inventory page: the category list of the drop-down,
 * the four filters over the fetched items, and the page state the fetch
 * and the filter controls update.
 */
module InventoryView {
  import opened Wrappers
  import opened Text
  import opened Seqs

  /** One row of the inventory sheet. Stock figures are whole numbers here. */
  datatype InventoryItem = InventoryItem(
    rowNumber: int,
    materialGroup: string,
    skuCode: string,
    description: string,
    uom: string,
    openingStock: int,
    todaysIn: int,
    todaysOut: int,
    closingStock: int)

  /** The first entry of the category list, which selects every group. */
  const AllCategories := "All Categories"

  /** Each entry sorts strictly before every later one: sorted, and no entry twice. */
  predicate StrictlySorted(s: seq<string>)
  {
    forall i, j :: 0 <= i < j < |s| ==> Below(s[i], s[j])
  }

  /** Puts `x` into its place in a strictly sorted list, unless it is there already. */
  function Insert(s: seq<string>, x: string): (r: seq<string>)
    requires StrictlySorted(s)
    ensures StrictlySorted(r)
    ensures forall y :: y in r <==> y in s || y == x
    decreases |s|
  {
    if s == [] then [x]
    else if x == s[0] then s
    else if Below(x, s[0]) then
      assert forall j :: 0 < j < |s| ==> Below(s[0], s[j]);
      InsertBelowHead(s, x);
      [x] + s
    else
      BelowTotal(x, s[0]);
      var rest := Insert(s[1..], x);
      InsertAboveHead(s, x, rest);
      [s[0]] + rest
  }

  lemma InsertBelowHead(s: seq<string>, x: string)
    requires StrictlySorted(s) && s != [] && Below(x, s[0])
    ensures StrictlySorted([x] + s)
  {
    forall j | 0 < j < |s|
      ensures Below(x, s[j])
    {
      BelowTransitive(x, s[0], s[j]);
    }
  }

  lemma InsertAboveHead(s: seq<string>, x: string, rest: seq<string>)
    requires StrictlySorted(s) && s != [] && Below(s[0], x)
    requires StrictlySorted(rest)
    requires forall y :: y in rest <==> y in s[1..] || y == x
    ensures StrictlySorted([s[0]] + rest)
  {
    forall j | 0 <= j < |rest|
      ensures Below(s[0], rest[j])
    {
      assert rest[j] in rest;
    }
  }

  /** `Array.from(new Set(groups)).sort()`: the distinct groups, in ascending order. */
  function SortedDistinct(groups: seq<string>): (r: seq<string>)
    ensures StrictlySorted(r)
    ensures forall y :: y in r <==> y in groups
    decreases |groups|
  {
    if groups == [] then []
    else
      var front := groups[..|groups| - 1];
      assert forall y :: y in groups <==> y in front || y == groups[|groups| - 1];
      Insert(SortedDistinct(front), groups[|groups| - 1])
  }

  /** The options of the category drop-down: the sentinel, then every material group once, in order. */
  function Categories(items: seq<InventoryItem>): (r: seq<string>)
    ensures |r| >= 1 && r[0] == AllCategories
    ensures StrictlySorted(r[1..])
    ensures forall g :: g in r[1..] <==> exists i :: 0 <= i < |items| && items[i].materialGroup == g
  {
    var groups := seq(|items|, i requires 0 <= i < |items| => items[i].materialGroup);
    var sorted := SortedDistinct(groups);
    forall g
      ensures g in groups <==> exists i :: 0 <= i < |items| && items[i].materialGroup == g
    {
      if g in groups {
        var i :| 0 <= i < |groups| && groups[i] == g;
        assert items[i].materialGroup == g;
      }
      if exists i :: 0 <= i < |items| && items[i].materialGroup == g {
        var i :| 0 <= i < |items| && items[i].materialGroup == g;
        assert groups[i] == g;
      }
    }
    [AllCategories] + sorted
  }

  /**
   * A strictly sorted list is fixed by its elements: any two with the same
   * elements are equal. So the category list is the one sorted, duplicate-free
   * arrangement of the groups.
   */
  lemma {:induction false} StrictlySortedUnique(a: seq<string>, b: seq<string>)
    requires StrictlySorted(a) && StrictlySorted(b)
    requires forall y :: y in a <==> y in b
    ensures a == b
    decreases |a|
  {
    if a != [] {
      assert a[0] in a;
    }
    if b != [] {
      assert b[0] in b;
    }
    if a != [] && b != [] {
      var j :| 0 <= j < |b| && b[j] == a[0];
      var i :| 0 <= i < |a| && a[i] == b[0];
      if j > 0 {
        // b[0] is below b[j], which is a[0]; and a[0] is below or equal to a[i], which is b[0]
        if i > 0 {
          BelowAsymmetric(b[0], a[0]);
        } else {
          BelowIrreflexive(a[0]);
        }
      }
      assert a[0] == b[0];
      assert a == [a[0]] + a[1..] && b == [b[0]] + b[1..];
      forall y
        ensures y in a[1..] <==> y in b[1..]
      {
        if y in a[1..] {
          var k :| 0 <= k < |a[1..]| && a[1..][k] == y;
          assert Below(a[0], a[k + 1]);
          BelowIrreflexive(a[0]);
          assert a[k + 1] == y && y in a && y != b[0];
          assert y in b;
        }
        if y in b[1..] {
          var k :| 0 <= k < |b[1..]| && b[1..][k] == y;
          assert Below(b[0], b[k + 1]);
          BelowIrreflexive(b[0]);
          assert b[k + 1] == y && y in b && y != a[0];
          assert y in a;
        }
      }
      StrictlySortedUnique(a[1..], b[1..]);
    }
  }

  /** The category list's tail is the unique strictly sorted list of the items' groups. */
  lemma CategoriesCanonical(items: seq<InventoryItem>, other: seq<string>)
    requires StrictlySorted(other)
    requires forall g :: g in other <==> exists i :: 0 <= i < |items| && items[i].materialGroup == g
    ensures Categories(items) == [AllCategories] + other
  {
    var r := Categories(items);
    StrictlySortedUnique(r[1..], other);
    assert r == [r[0]] + r[1..];
  }

  /** The four filter controls. */
  datatype Filters = Filters(category: string, searchTerm: string, showOnlyIn: bool, showOnlyOut: bool)

  /** The filters when the page opens, and after either reset. */
  const Initial := Filters(AllCategories, "", false, false)

  /** Whether an item passes all four filters. */
  predicate Keeps(f: Filters, item: InventoryItem)
  {
    (f.category == AllCategories || item.materialGroup == f.category)
    && Contains(ToLower(item.description), ToLower(f.searchTerm))
    && (!f.showOnlyIn || item.todaysIn > 0)
    && (!f.showOnlyOut || item.todaysOut > 0)
  }

  /** The items shown, in inventory order. */
  function FilteredItems(items: seq<InventoryItem>, f: Filters): (r: seq<InventoryItem>)
    ensures |r| <= |items|
    ensures forall k :: 0 <= k < |r| ==> Keeps(f, r[k])
  {
    Filter(items, item => Keeps(f, item))
  }

  /** The shown items are the inventory with some items left out and the rest in their order. */
  lemma FilteredIsSubsequence(items: seq<InventoryItem>, f: Filters)
    ensures IsSubsequence(FilteredItems(items, f), items)
  {
    FilterIsSubsequence(items, item => Keeps(f, item));
  }

  /** An item is shown exactly when it is in the inventory and passes all four filters. */
  lemma FilteredMembership(items: seq<InventoryItem>, f: Filters, item: InventoryItem)
    ensures item in FilteredItems(items, f) <==> item in items && Keeps(f, item)
  {
    FilterMembership(items, x => Keeps(f, x), item);
  }

  /** With the initial filters every item is shown. */
  lemma InitialKeepsAll(items: seq<InventoryItem>)
    ensures FilteredItems(items, Initial) == items
  {
    forall k | 0 <= k < |items|
      ensures Keeps(Initial, items[k])
    {
      ContainsEmpty(ToLower(items[k].description));
    }
    FilterKeepsAll(items, item => Keeps(Initial, item));
  }

  /** The body of a successful fetch: `items` and `lastUpdated`, either of which may be missing or null. */
  datatype InventoryPayload = InventoryPayload(items: Option<seq<InventoryItem>>, lastUpdated: Option<string>)

  /** The message shown when a failed fetch carries none. */
  const LoadFailedMessage := "Failed to load inventory"

  /** The page's state. */
  class InventoryPage {
    var selectedCategory: string
    var searchTerm: string
    var showOnlyIn: bool
    var showOnlyOut: bool
    var inventory: seq<InventoryItem>
    var lastUpdated: Option<string>
    var isLoading: bool
    var error: Option<string>

    function CurrentFilters(): Filters
      reads this
    {
      Filters(selectedCategory, searchTerm, showOnlyIn, showOnlyOut)
    }

    /** The rows of the table. */
    function Visible(): (r: seq<InventoryItem>)
      reads this
      ensures |r| <= |inventory|
    {
      FilteredItems(inventory, CurrentFilters())
    }

    /** The page as first rendered: initial filters, nothing loaded, loading. */
    constructor()
      ensures CurrentFilters() == Initial
      ensures inventory == [] && lastUpdated.None? && isLoading && error.None?
    {
      selectedCategory := AllCategories;
      searchTerm := "";
      showOnlyIn := false;
      showOnlyOut := false;
      inventory := [];
      lastUpdated := None;
      isLoading := true;
      error := None;
    }

    /** A fetch that returned a body: a missing `items` is the empty list. */
    method FetchSucceeded(payload: InventoryPayload)
      modifies this
      ensures inventory == payload.items.GetOr([]) && lastUpdated == payload.lastUpdated
      ensures error.None? && !isLoading
      ensures CurrentFilters() == old(CurrentFilters())
    {
      isLoading := true;
      error := None;
      inventory := payload.items.GetOr([]);
      lastUpdated := payload.lastUpdated;
      isLoading := false;
    }

    /** A fetch that failed with `message`; an empty message is replaced by the generic one. */
    method FetchFailed(message: string)
      modifies this
      ensures error == Some(if message == "" then LoadFailedMessage else message) && !isLoading
      ensures inventory == old(inventory) && lastUpdated == old(lastUpdated)
      ensures CurrentFilters() == old(CurrentFilters())
    {
      isLoading := true;
      error := None;
      error := Some(if message != "" then message else LoadFailedMessage);
      isLoading := false;
    }

    method SetSearchTerm(term: string)
      modifies this
      ensures CurrentFilters() == old(CurrentFilters()).(searchTerm := term)
      ensures inventory == old(inventory) && lastUpdated == old(lastUpdated)
      ensures isLoading == old(isLoading) && error == old(error)
    {
      searchTerm := term;
    }

    /** The clear button of the search box. */
    method ClearSearch()
      modifies this
      ensures CurrentFilters() == old(CurrentFilters()).(searchTerm := "")
      ensures inventory == old(inventory) && lastUpdated == old(lastUpdated)
      ensures isLoading == old(isLoading) && error == old(error)
    {
      searchTerm := "";
    }

    method SelectCategory(category: string)
      modifies this
      ensures CurrentFilters() == old(CurrentFilters()).(category := category)
      ensures inventory == old(inventory) && lastUpdated == old(lastUpdated)
      ensures isLoading == old(isLoading) && error == old(error)
    {
      selectedCategory := category;
    }

    method ToggleIn()
      modifies this
      ensures CurrentFilters() == old(CurrentFilters()).(showOnlyIn := !old(showOnlyIn))
      ensures inventory == old(inventory) && lastUpdated == old(lastUpdated)
      ensures isLoading == old(isLoading) && error == old(error)
    {
      showOnlyIn := !showOnlyIn;
    }

    method ToggleOut()
      modifies this
      ensures CurrentFilters() == old(CurrentFilters()).(showOnlyOut := !old(showOnlyOut))
      ensures inventory == old(inventory) && lastUpdated == old(lastUpdated)
      ensures isLoading == old(isLoading) && error == old(error)
    {
      showOnlyOut := !showOnlyOut;
    }

    /** "Reset all": the four filters back to their initial values, so every item is shown again. */
    method ResetAll()
      modifies this
      ensures CurrentFilters() == Initial
      ensures inventory == old(inventory) && lastUpdated == old(lastUpdated)
      ensures isLoading == old(isLoading) && error == old(error)
      ensures Visible() == inventory
    {
      showOnlyIn := false;
      showOnlyOut := false;
      searchTerm := "";
      selectedCategory := AllCategories;
      InitialKeepsAll(inventory);
    }

    /** "Clear all filters" under an empty result: the same four defaults. */
    method ClearAllFilters()
      modifies this
      ensures CurrentFilters() == Initial
      ensures inventory == old(inventory) && lastUpdated == old(lastUpdated)
      ensures isLoading == old(isLoading) && error == old(error)
      ensures Visible() == inventory
    {
      searchTerm := "";
      selectedCategory := AllCategories;
      showOnlyIn := false;
      showOnlyOut := false;
      InitialKeepsAll(inventory);
    }
  }
}
