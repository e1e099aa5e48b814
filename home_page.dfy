/** The home page (src/pages/Home.jsx): the featured strip and the
    per-category showcases drawn from the loaded catalogue. */
module HomePage {
  import opened Text
  import opened Seqs
  import opened Catalog
  import ProductsSlice

  /** `featuredProducts`: the first eight products, in order. */
  function FeaturedProducts(products: seq<Product>): (r: seq<Product>)
    ensures |r| == if |products| < 8 then |products| else 8
    ensures r == products[..|r|]
  {
    Take(products, 8)
  }

  function InNamedCategory(categoryName: string): Product -> bool {
    (p: Product) => ProductsSlice.InCategory(p, categoryName)
  }

  /** `getProductsByCategory`: the first four products whose category
      equals the name ignoring case, in catalogue order. */
  function ProductsByCategory(products: seq<Product>, categoryName: string): (r: seq<Product>)
    ensures |r| <= 4
    ensures forall i :: 0 <= i < |r| ==> r[i] in products && EqualsIgnoreCase(r[i].category, categoryName)
  {
    Take(Filter(products, InNamedCategory(categoryName)), 4)
  }

  /** The showcase is a prefix of all the category's products: the first
      four of them, or all of them when there are at most four. */
  lemma ShowcaseIsFirstMatches(products: seq<Product>, categoryName: string)
    ensures var all := Filter(products, InNamedCategory(categoryName));
            && ProductsByCategory(products, categoryName) == all[..|ProductsByCategory(products, categoryName)|]
            && |ProductsByCategory(products, categoryName)| == (if |all| < 4 then |all| else 4)
            && (|all| <= 4 ==> ProductsByCategory(products, categoryName) == all)
            && IsSubsequence(ProductsByCategory(products, categoryName), products)
  {
    var all := Filter(products, InNamedCategory(categoryName));
    var r := ProductsByCategory(products, categoryName);
    FilterIsSubsequence(products, InNamedCategory(categoryName));
    SubsequencePrefix(r, all, products);
  }

  /** The category name's case does not matter. */
  lemma ShowcaseIgnoresNameCase(products: seq<Product>, a: string, b: string)
    requires Lower(a) == Lower(b)
    ensures ProductsByCategory(products, a) == ProductsByCategory(products, b)
  {
    FilterExt(products, InNamedCategory(a), InNamedCategory(b));
  }
}
