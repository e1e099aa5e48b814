/** The product listing page (src/pages/Products.jsx): sorting a copy of the
    filtered catalogue, the category list, the breadcrumb entries and the
    URL query-parameter updates made by the category and search handlers. */
module ProductsPage {
  import opened Common
  import opened Text
  import opened Seqs
  import opened Catalog
  import Breadcrumbs
  import ProductsSlice

  // ----- sorting -----

  datatype SortKey = PriceLow | PriceHigh | ByName | ByRating | Unsorted

  /** The `switch (sortBy)` cases; every other value, `'default'` included,
      leaves the order alone. */
  function SortKeyOf(sortBy: string): (k: SortKey)
    ensures k == Unsorted <==> sortBy !in {"price-low", "price-high", "name", "rating"}
  {
    if sortBy == "price-low" then PriceLow
    else if sortBy == "price-high" then PriceHigh
    else if sortBy == "name" then ByName
    else if sortBy == "rating" then ByRating
    else Unsorted
  }

  /** `a` may stand before `b`: the key's comparator does not return a
      positive number. `precedes(x, y)` stands for `x.localeCompare(y) <= 0`. */
  predicate InOrder(key: SortKey, precedes: (string, string) -> bool, a: Product, b: Product) {
    match key
    case PriceLow => a.price <= b.price
    case PriceHigh => b.price <= a.price
    case ByName => precedes(a.title, b.title)
    case ByRating => RateOrZero(b) <= RateOrZero(a)
    case Unsorted => true
  }

  /** The locale comparison is a total preorder on titles. */
  ghost predicate TotalPreorder(precedes: (string, string) -> bool) {
    && (forall x, y :: precedes(x, y) || precedes(y, x))
    && (forall x, y, z :: precedes(x, y) && precedes(y, z) ==> precedes(x, z))
  }

  ghost predicate SortedBy(s: seq<Product>, key: SortKey, precedes: (string, string) -> bool) {
    forall i, j :: 0 <= i < j < |s| ==> InOrder(key, precedes, s[i], s[j])
  }

  /** Every key orders any two products one way or the other. */
  lemma InOrderTotal(key: SortKey, precedes: (string, string) -> bool, a: Product, b: Product)
    requires key == ByName ==> TotalPreorder(precedes)
    ensures InOrder(key, precedes, a, b) || InOrder(key, precedes, b, a)
  {
  }

  /** Every key orders products transitively. */
  lemma InOrderTransitive(key: SortKey, precedes: (string, string) -> bool, a: Product, b: Product, c: Product)
    requires key == ByName ==> TotalPreorder(precedes)
    requires InOrder(key, precedes, a, b) && InOrder(key, precedes, b, c)
    ensures InOrder(key, precedes, a, c)
  {
  }

  method Swap(a: array<Product>, i: int, j: int)
    requires 0 <= i < j < a.Length
    modifies a
    ensures a[..] == old(a[..])[i := old(a[j])][j := old(a[i])]
    ensures multiset(a[..]) == multiset(old(a[..]))
  {
    a[i], a[j] := a[j], a[i];
  }

  /** One insertion step: the element at `i` moves left past the neighbours
      that must come after it, so `a[..i+1]` ends up in order and nothing
      moves when `a[i]` already follows `a[i-1]`. */
  method InsertAt(a: array<Product>, i: int, key: SortKey, precedes: (string, string) -> bool)
    requires 1 <= i < a.Length
    requires key == ByName ==> TotalPreorder(precedes)
    requires forall k, l :: 0 <= k < l < i ==> InOrder(key, precedes, a[k], a[l])
    modifies a
    ensures forall k, l :: 0 <= k < l <= i ==> InOrder(key, precedes, a[k], a[l])
    ensures multiset(a[..]) == multiset(old(a[..]))
    ensures InOrder(key, precedes, old(a[i - 1]), old(a[i])) ==> a[..] == old(a[..])
  {
    var j := i;
    while j > 0 && !InOrder(key, precedes, a[j - 1], a[j])
      invariant 0 <= j <= i
      invariant forall k, l :: 0 <= k < l <= i && k != j && l != j ==> InOrder(key, precedes, a[k], a[l])
      invariant forall l :: j < l <= i ==> InOrder(key, precedes, a[j], a[l])
      invariant multiset(a[..]) == multiset(old(a[..]))
      invariant InOrder(key, precedes, old(a[i - 1]), old(a[i])) ==> a[..] == old(a[..]) && j == i
    {
      InOrderTotal(key, precedes, a[j - 1], a[j]);
      Swap(a, j - 1, j);
      j := j - 1;
    }
    if j > 0 {
      forall k | 0 <= k < j
        ensures InOrder(key, precedes, a[k], a[j])
      {
        if k < j - 1 {
          InOrderTransitive(key, precedes, a[k], a[j - 1], a[j]);
        }
      }
    }
  }

  /** `Array.prototype.sort` with the key's comparator, as an insertion sort
      in place: an array already in order is left untouched. */
  method SortInPlace(a: array<Product>, key: SortKey, precedes: (string, string) -> bool)
    requires key == ByName ==> TotalPreorder(precedes)
    modifies a
    ensures SortedBy(a[..], key, precedes)
    ensures multiset(a[..]) == multiset(old(a[..]))
    ensures SortedBy(old(a[..]), key, precedes) ==> a[..] == old(a[..])
  {
    if a.Length == 0 {
      return;
    }
    var i := 1;
    while i < a.Length
      invariant 1 <= i <= a.Length
      invariant forall k, l :: 0 <= k < l < i ==> InOrder(key, precedes, a[k], a[l])
      invariant multiset(a[..]) == multiset(old(a[..]))
      invariant SortedBy(old(a[..]), key, precedes) ==> a[..] == old(a[..])
    {
      InsertAt(a, i, key, precedes);
      i := i + 1;
    }
  }

  /** `getSortedProducts`: sorts a fresh copy of the filtered list. The
      result is a rearrangement of the input in the key's order; the default
      key, and an input already in order, give the input order back, so
      sorting twice with one key changes nothing. */
  method GetSortedProducts(filteredProducts: seq<Product>, sortBy: string, precedes: (string, string) -> bool)
    returns (sorted: seq<Product>)
    requires SortKeyOf(sortBy) == ByName ==> TotalPreorder(precedes)
    ensures multiset(sorted) == multiset(filteredProducts)
    ensures SortedBy(sorted, SortKeyOf(sortBy), precedes)
    ensures SortKeyOf(sortBy) == Unsorted ==> sorted == filteredProducts
    ensures SortedBy(filteredProducts, SortKeyOf(sortBy), precedes) ==> sorted == filteredProducts
    ensures sortBy == "price-low" ==> forall i, j :: 0 <= i < j < |sorted| ==> sorted[i].price <= sorted[j].price
    ensures sortBy == "price-high" ==> forall i, j :: 0 <= i < j < |sorted| ==> sorted[i].price >= sorted[j].price
    ensures sortBy == "rating" ==> forall i, j :: 0 <= i < j < |sorted| ==> RateOrZero(sorted[i]) >= RateOrZero(sorted[j])
    ensures sortBy == "name" ==> forall i, j :: 0 <= i < j < |sorted| ==> precedes(sorted[i].title, sorted[j].title)
  {
    var copy := new Product[|filteredProducts|](i requires 0 <= i < |filteredProducts| => filteredProducts[i]);
    assert copy[..] == filteredProducts;
    var key := SortKeyOf(sortBy);
    if key != Unsorted {
      SortInPlace(copy, key, precedes);
    }
    sorted := copy[..];
  }

  // ----- categories and breadcrumbs -----

  /** `['all', ...categories]` */
  function AllCategories(categories: seq<string>): (r: seq<string>)
    ensures |r| == |categories| + 1 && r[0] == "all" && r[1..] == categories
  {
    ["all"] + categories
  }

  /** The breadcrumb entries of the page: "Products", then the display name
      of the selected category when one other than `'all'` is selected. */
  function BreadcrumbItems(selectedCategory: string): (items: seq<Breadcrumbs.Crumb>)
    ensures |items| == 1 || |items| == 2
    ensures items[0] == Breadcrumbs.Crumb("Products", Some("/products"))
    ensures |items| == 2 <==> ProductsSlice.CategoryStepApplies(selectedCategory)
    ensures |items| == 2 ==> items[1] == Breadcrumbs.Crumb(CategoryDisplayName(selectedCategory), None)
  {
    [Breadcrumbs.Crumb("Products", Some("/products"))]
    + (if selectedCategory != "" && selectedCategory != "all"
       then [Breadcrumbs.Crumb(CategoryDisplayName(selectedCategory), None)]
       else [])
  }

  /** On the rendered trail, "Products" is a link exactly when a category
      entry follows it. */
  lemma ProductsCrumbLinksIffCategory(selectedCategory: string)
    ensures Breadcrumbs.Render(BreadcrumbItems(selectedCategory))[1].link.Some?
            <==> ProductsSlice.CategoryStepApplies(selectedCategory)
  {
    var items := BreadcrumbItems(selectedCategory);
    assert Breadcrumbs.AllItems(items)[1] == items[0];
  }

  /** The page heading: the selected category's display name, or "All Products". */
  function Heading(selectedCategory: string): (r: string)
    ensures !ProductsSlice.CategoryStepApplies(selectedCategory) ==> r == "All Products"
    ensures ProductsSlice.CategoryStepApplies(selectedCategory) ==> r == CategoryDisplayName(selectedCategory)
  {
    if selectedCategory != "" && selectedCategory != "all" then CategoryDisplayName(selectedCategory) else "All Products"
  }

  // ----- URL query parameters -----

  /** A query string as its list of name/value pairs. */
  type Param = (string, string)

  /** `params.get(name)`: the value of the first pair with that name. */
  function ParamGet(params: seq<Param>, name: string): (r: Option<string>)
    ensures r.None? <==> forall i :: 0 <= i < |params| ==> params[i].0 != name
  {
    if params == [] then None
    else if params[0].0 == name then Some(params[0].1)
    else ParamGet(params[1..], name)
  }

  /** `params.delete(name)`: every pair with that name goes. */
  function ParamDelete(params: seq<Param>, name: string): seq<Param> {
    Filter(params, OtherName(name))
  }

  /** Holds of the pairs whose name is not `name`. */
  function OtherName(name: string): Param -> bool {
    (p: Param) => p.0 != name
  }

  /** The first pair with that name gets the value and the later ones go. */
  function SetFirst(params: seq<Param>, name: string, value: string): seq<Param> {
    if params == [] then []
    else if params[0].0 == name then [(name, value)] + ParamDelete(params[1..], name)
    else [params[0]] + SetFirst(params[1..], name, value)
  }

  /** `params.set(name, value)`: the first pair with that name takes the
      value and the others go; without such a pair one is appended. */
  function ParamSet(params: seq<Param>, name: string, value: string): seq<Param> {
    if ParamGet(params, name).Some? then SetFirst(params, name, value) else params + [(name, value)]
  }

  /** After `set`, reading the name gives the new value. */
  lemma {:induction false} SetThenGet(params: seq<Param>, name: string, value: string)
    ensures ParamGet(ParamSet(params, name, value), name) == Some(value)
  {
    if ParamGet(params, name).Some? {
      SetFirstThenGet(params, name, value);
    } else {
      AppendGet(params, name, value);
    }
  }

  lemma {:induction false} SetFirstThenGet(params: seq<Param>, name: string, value: string)
    requires ParamGet(params, name).Some?
    ensures ParamGet(SetFirst(params, name, value), name) == Some(value)
  {
    if params[0].0 != name {
      SetFirstThenGet(params[1..], name, value);
    }
  }

  lemma {:induction false} AppendGet(params: seq<Param>, name: string, value: string)
    requires ParamGet(params, name).None?
    ensures ParamGet(params + [(name, value)], name) == Some(value)
  {
    if params != [] {
      assert (params + [(name, value)])[1..] == params[1..] + [(name, value)];
      AppendGet(params[1..], name, value);
    }
  }

  /** After `delete`, the name is absent. */
  lemma DeleteThenGet(params: seq<Param>, name: string)
    ensures ParamGet(ParamDelete(params, name), name).None?
  {
  }

  /** `set` leaves the pairs of every other name as they were, in order. */
  lemma {:induction false} SetKeepsOthers(params: seq<Param>, name: string, value: string)
    ensures ParamDelete(ParamSet(params, name, value), name) == ParamDelete(params, name)
  {
    if ParamGet(params, name).Some? {
      SetFirstKeepsOthers(params, name, value);
    } else {
      FilterAppend(params, [(name, value)], OtherName(name));
    }
  }

  lemma {:induction false} SetFirstKeepsOthers(params: seq<Param>, name: string, value: string)
    ensures ParamDelete(SetFirst(params, name, value), name) == ParamDelete(params, name)
  {
    if params != [] {
      if params[0].0 == name {
        DeleteIdempotent(params[1..], name);
        assert ParamDelete([(name, value)] + ParamDelete(params[1..], name), name)
            == ParamDelete(ParamDelete(params[1..], name), name);
      } else {
        SetFirstKeepsOthers(params[1..], name, value);
        assert ([params[0]] + SetFirst(params[1..], name, value))[1..] == SetFirst(params[1..], name, value);
      }
    }
  }

  /** `delete` leaves the pairs of every other name as they were, in order. */
  lemma DeleteIdempotent(params: seq<Param>, name: string)
    ensures ParamDelete(ParamDelete(params, name), name) == ParamDelete(params, name)
  {
    FilterAll(ParamDelete(params, name), OtherName(name));
  }

  /** A `URLSearchParams` object, updated in place by `set` and `delete`. */
  class SearchParams {
    var entries: seq<Param>

    /** `new URLSearchParams(init)`: a copy. */
    constructor (init: seq<Param>)
      ensures entries == init
    {
      entries := init;
    }

    method Set(name: string, value: string)
      modifies this
      ensures entries == ParamSet(old(entries), name, value)
    {
      entries := ParamSet(entries, name, value);
    }

    method Delete(name: string)
      modifies this
      ensures entries == ParamDelete(old(entries), name)
    {
      entries := ParamDelete(entries, name);
    }
  }

  /** `handleCategoryChange`: records the category in the slice, and drops the
      `category` parameter for `'all'` or sets it otherwise. */
  method HandleCategoryChange(state: ProductsSlice.ProductsState, searchParams: seq<Param>, category: string)
    returns (newParams: seq<Param>)
    modifies state
    ensures state.View() == old(state.View()).(selectedCategory := category)
    ensures category == "all" ==> newParams == ParamDelete(searchParams, "category")
    ensures category != "all" ==> newParams == ParamSet(searchParams, "category", category)
  {
    state.SetSelectedCategory(category);
    var params := new SearchParams(searchParams);
    if category == "all" {
      params.Delete("category");
    } else {
      params.Set("category", category);
    }
    newParams := params.entries;
  }

  /** `handleSearch`: records the query in the slice as typed, and sets the
      `search` parameter to it unless it is blank after trimming, in which
      case the parameter is dropped. */
  method HandleSearch(state: ProductsSlice.ProductsState, searchParams: seq<Param>, localSearchQuery: string)
    returns (newParams: seq<Param>)
    modifies state
    ensures state.View() == old(state.View()).(searchQuery := localSearchQuery)
    ensures Trim(localSearchQuery) != "" ==> newParams == ParamSet(searchParams, "search", localSearchQuery)
    ensures Trim(localSearchQuery) == "" ==> newParams == ParamDelete(searchParams, "search")
  {
    state.SetSearchQuery(localSearchQuery);
    var params := new SearchParams(searchParams);
    if Trim(localSearchQuery) != "" {
      params.Set("search", localSearchQuery);
    } else {
      params.Delete("search");
    }
    newParams := params.entries;
  }

  /** The effect that copies non-empty `category` and `search` parameters
      into the slice. A non-empty `search` also becomes the search box's
      text, returned as `localSearchQuery` (None: the box keeps its text). */
  method SyncFromUrl(state: ProductsSlice.ProductsState, searchParams: seq<Param>)
    returns (localSearchQuery: Option<string>)
    modifies state
    ensures var q := ParamGet(searchParams, "search");
            localSearchQuery == if q.Some? && q.value != "" then q else None
    ensures var c := ParamGet(searchParams, "category");
            var q := ParamGet(searchParams, "search");
            state.View() == old(state.View()).(
              selectedCategory := if c.Some? && c.value != "" then c.value else old(state.selectedCategory),
              searchQuery := if q.Some? && q.value != "" then q.value else old(state.searchQuery))
  {
    var categoryParam := ParamGet(searchParams, "category");
    var searchParam := ParamGet(searchParams, "search");
    localSearchQuery := None;
    if categoryParam.Some? && categoryParam.value != "" {
      state.SetSelectedCategory(categoryParam.value);
    }
    if searchParam.Some? && searchParam.value != "" {
      state.SetSearchQuery(searchParam.value);
      localSearchQuery := searchParam;
    }
  }

  /** The effect that re-runs the catalogue filter with the slice's own
      category and query. */
  method RefreshFilter(state: ProductsSlice.ProductsState)
    modifies state
    ensures state.View() == old(state.View()).(
      filteredProducts := ProductsSlice.CatalogueFilter(old(state.products), old(state.selectedCategory), old(state.searchQuery)))
  {
    state.FilterProducts(state.selectedCategory, state.searchQuery);
  }
}
