/** The catalogue state of the storefront (src/redux/slices/productsSlice.js):
    one record of fields that the reducers and the pending/fulfilled/rejected
    transitions of the asynchronous fetches update in place, and the
    client-side catalogue filter. */
module ProductsSlice {
  import opened Common
  import opened Text
  import opened Seqs
  import opened Catalog

  /** `products.findIndex(p => p.id === id)`, with None for -1. */
  function FindIndex(products: seq<Product>, id: int): (r: Option<nat>)
    ensures r.Some? ==> r.value < |products| && products[r.value].id == id
    ensures r.Some? ==> forall j :: 0 <= j < r.value ==> products[j].id != id
    ensures r.None? ==> forall j :: 0 <= j < |products| ==> products[j].id != id
  {
    if products == [] then None
    else if products[0].id == id then Some(0)
    else
      match FindIndex(products[1..], id)
      case Some(k) => Some(k + 1)
      case None => None
  }

  /** `category && category !== 'all'`: the sentinel is compared exactly,
      so only the lower-case spelling switches the category step off. */
  predicate CategoryStepApplies(category: string) {
    category != "" && category != "all"
  }

  /** `product.category.toLowerCase() === category.toLowerCase()` */
  predicate InCategory(p: Product, category: string) {
    EqualsIgnoreCase(p.category, category)
  }

  /** The list `filterProducts` computes: the category step, then the search
      step (skipped for an empty query). */
  function CatalogueFilter(products: seq<Product>, category: string, searchQuery: string): seq<Product> {
    var byCategory :=
      if CategoryStepApplies(category) then Filter(products, p => InCategory(p, category)) else products;
    if searchQuery != "" then SearchProducts(searchQuery, byCategory) else byCategory
  }

  /** A product survives exactly when it passes the category step (when that
      step applies) and the search step (when the query is not empty), and
      then as many times as it occurs in the catalogue. */
  lemma CatalogueFilterMembers(products: seq<Product>, category: string, searchQuery: string, p: Product)
    ensures p in CatalogueFilter(products, category, searchQuery) <==>
      && p in products
      && (CategoryStepApplies(category) ==> InCategory(p, category))
      && (searchQuery != "" ==> MatchesQuery(p, searchQuery))
    ensures multiset(CatalogueFilter(products, category, searchQuery))[p] ==
      if (CategoryStepApplies(category) ==> InCategory(p, category))
         && (searchQuery != "" ==> MatchesQuery(p, searchQuery))
      then multiset(products)[p] else 0
  {
    FilterCounts(products, p => InCategory(p, category));
  }

  /** The filter result keeps the catalogue order. */
  lemma CatalogueFilterKeepsOrder(products: seq<Product>, category: string, searchQuery: string)
    ensures IsSubsequence(CatalogueFilter(products, category, searchQuery), products)
  {
    var cat := p => InCategory(p, category);
    var byCategory := if CategoryStepApplies(category) then Filter(products, cat) else products;
    var idx1: seq<nat>;
    if CategoryStepApplies(category) {
      idx1 := FilterIndices(products, cat);
    } else {
      idx1 := seq(|products|, k requires 0 <= k < |products| => k);
    }
    assert SubsequenceVia(byCategory, products, idx1);
    if searchQuery != "" {
      var idx2 := FilterIndices(byCategory, p => MatchesQuery(p, searchQuery));
      SubsequenceTransitive(SearchProducts(searchQuery, byCategory), byCategory, products, idx2, idx1);
    }
  }

  lemma SubsequenceTransitive(a: seq<Product>, b: seq<Product>, c: seq<Product>, ab: seq<nat>, bc: seq<nat>)
    requires SubsequenceVia(a, b, ab) && SubsequenceVia(b, c, bc)
    ensures IsSubsequence(a, c)
  {
    var ac := seq(|ab|, k requires 0 <= k < |ab| => bc[ab[k]]);
    assert SubsequenceVia(a, c, ac);
  }

  /** With the `'all'` sentinel (or no category) and no query, the filter is
      the identity. */
  lemma CatalogueFilterIdentity(products: seq<Product>, category: string)
    requires category == "all" || category == ""
    ensures CatalogueFilter(products, category, "") == products
  {
  }

  /** Any other spelling of the sentinel is an ordinary category: `'ALL'`
      keeps only products whose category is "all" in some case. */
  lemma UpperCaseAllIsACategory(products: seq<Product>)
    ensures CatalogueFilter(products, "ALL", "") == Filter(products, p => InCategory(p, "ALL"))
  {
    assert CategoryStepApplies("ALL");
  }

  /** `products.filter(p => p.id !== id)` */
  function WithoutId(products: seq<Product>, id: int): seq<Product> {
    Filter(products, (p: Product) => p.id != id)
  }

  /** The asynchronous fetches whose pending/fulfilled/rejected transitions
      the slice handles. */
  datatype Thunk = FetchProducts | FetchProductById | FetchCategories | FetchProductsByCategory | SearchProductsThunk

  /** The whole slice state as one value. */
  datatype State = State(
    products: seq<Product>,
    filteredProducts: seq<Product>,
    categories: seq<string>,
    selectedCategory: string,
    searchQuery: string,
    loading: bool,
    error: Option<string>,
    currentProduct: Option<Product>,
    productLoading: bool)

  const InitialState: State := State([], [], [], "all", "", false, None, None, false)

  /** The products slice, updated in place by its reducers. */
  class ProductsState {
    var products: seq<Product>
    var filteredProducts: seq<Product>
    var categories: seq<string>
    var selectedCategory: string
    var searchQuery: string
    var loading: bool
    var error: Option<string>
    var currentProduct: Option<Product>
    var productLoading: bool

    function View(): State
      reads this
    {
      State(products, filteredProducts, categories, selectedCategory, searchQuery,
            loading, error, currentProduct, productLoading)
    }

    /** `initialState` */
    constructor ()
      ensures View() == InitialState
    {
      products, filteredProducts, categories := [], [], [];
      selectedCategory, searchQuery := "all", "";
      loading, error := false, None;
      currentProduct, productLoading := None, false;
    }

    method SetProducts(payload: seq<Product>)
      modifies this
      ensures View() == old(View()).(products := payload, filteredProducts := payload, loading := false)
    {
      products := payload;
      filteredProducts := payload;
      loading := false;
    }

    method SetFilteredProducts(payload: seq<Product>)
      modifies this
      ensures View() == old(View()).(filteredProducts := payload)
    {
      filteredProducts := payload;
    }

    method SetSelectedCategory(category: string)
      modifies this
      ensures View() == old(View()).(selectedCategory := category)
    {
      selectedCategory := category;
    }

    method SetSearchQuery(query: string)
      modifies this
      ensures View() == old(View()).(searchQuery := query)
    {
      searchQuery := query;
    }

    method SetLoading(value: bool)
      modifies this
      ensures View() == old(View()).(loading := value)
    {
      loading := value;
    }

    method SetError(message: string)
      modifies this
      ensures View() == old(View()).(error := Some(message), loading := false)
    {
      error := Some(message);
      loading := false;
    }

    method ClearError()
      modifies this
      ensures View() == old(View()).(error := None)
    {
      error := None;
    }

    method SetCurrentProduct(p: Option<Product>)
      modifies this
      ensures View() == old(View()).(currentProduct := p)
    {
      currentProduct := p;
    }

    method ClearCurrentProduct()
      modifies this
      ensures View() == old(View()).(currentProduct := None)
    {
      currentProduct := None;
    }

    /** `addProduct`: the payload goes to the end of both lists. */
    method AddProduct(payload: Product)
      modifies this
      ensures View() == old(View()).(products := old(products) + [payload],
                                     filteredProducts := old(filteredProducts) + [payload])
    {
      products := products + [payload];
      filteredProducts := filteredProducts + [payload];
    }

    /** `updateProduct`: the first product with the payload's id is replaced
      and the filtered list reset to the catalogue; without a match nothing
      changes. */
    method UpdateProduct(payload: Product)
      modifies this
      ensures FindIndex(old(products), payload.id).None? ==> View() == old(View())
      ensures FindIndex(old(products), payload.id).Some? ==>
        var i := FindIndex(old(products), payload.id).value;
        View() == old(View()).(products := old(products)[i := payload],
                               filteredProducts := old(products)[i := payload])
    {
      var index := FindIndex(products, payload.id);
      if index.Some? {
        products := products[index.value := payload];
        filteredProducts := products;
      }
    }

    /** `deleteProduct`: every product with that id goes, and the filtered
      list is reset to the catalogue. */
    method DeleteProduct(id: int)
      modifies this
      ensures products == WithoutId(old(products), id)
      ensures View() == old(View()).(products := products, filteredProducts := products)
    {
      products := WithoutId(products, id);
      filteredProducts := products;
    }

    /** `filterProducts`: recomputes the filtered list from the catalogue,
      which itself is left as it was. */
    method FilterProducts(category: string, searchQuery: string)
      modifies this
      ensures View() == old(View()).(filteredProducts := CatalogueFilter(old(products), category, searchQuery))
    {
      var filtered := products;
      if CategoryStepApplies(category) {
        filtered := Filter(filtered, p => InCategory(p, category));
      }
      if searchQuery != "" {
        filtered := SearchProducts(searchQuery, filtered);
      }
      filteredProducts := filtered;
    }

    /** The `pending` transition of each fetch. */
    method Pending(t: Thunk)
      modifies this
      ensures t == FetchProductById ==> View() == old(View()).(productLoading := true, error := None)
      ensures t == FetchCategories ==> View() == old(View()).(loading := true)
      ensures t !in {FetchProductById, FetchCategories} ==> View() == old(View()).(loading := true, error := None)
    {
      match t {
        case FetchProductById =>
          productLoading := true;
          error := None;
        case FetchCategories =>
          loading := true;
        case _ =>
          loading := true;
          error := None;
      }
    }

    /** The `rejected` transition of each fetch: the error message is kept and
      the lists are left as they were. */
    method Rejected(t: Thunk, message: string)
      modifies this
      ensures t == FetchProductById ==> View() == old(View()).(productLoading := false, error := Some(message))
      ensures t != FetchProductById ==> View() == old(View()).(loading := false, error := Some(message))
    {
      if t == FetchProductById {
        productLoading := false;
      } else {
        loading := false;
      }
      error := Some(message);
    }

    method FetchProductsFulfilled(payload: seq<Product>)
      modifies this
      ensures View() == old(View()).(loading := false, products := payload, filteredProducts := payload, error := None)
    {
      loading := false;
      products := payload;
      filteredProducts := payload;
      error := None;
    }

    method FetchProductByIdFulfilled(payload: Product)
      modifies this
      ensures View() == old(View()).(productLoading := false, currentProduct := Some(payload), error := None)
    {
      productLoading := false;
      currentProduct := Some(payload);
      error := None;
    }

    /** Unlike the other fetches, loading the categories leaves `error` alone. */
    method FetchCategoriesFulfilled(payload: seq<string>)
      modifies this
      ensures View() == old(View()).(loading := false, categories := payload)
    {
      loading := false;
      categories := payload;
    }

    /** Shared by `fetchProductsByCategory` and `searchProducts`: only the
      filtered list is replaced. */
    method FilteredFetchFulfilled(t: Thunk, payload: seq<Product>)
      requires t == FetchProductsByCategory || t == SearchProductsThunk
      modifies this
      ensures View() == old(View()).(loading := false, filteredProducts := payload, error := None)
    {
      loading := false;
      filteredProducts := payload;
      error := None;
    }
  }

  /** After a delete no product with that id is left, every other product
      stays, and the order is kept. */
  lemma DeleteRemovesExactlyThatId(products: seq<Product>, id: int)
    ensures forall i :: 0 <= i < |WithoutId(products, id)| ==> WithoutId(products, id)[i].id != id
    ensures forall i :: 0 <= i < |products| && products[i].id != id ==> products[i] in WithoutId(products, id)
    ensures IsSubsequence(WithoutId(products, id), products)
  {
    FilterIsSubsequence(products, (p: Product) => p.id != id);
  }
}
