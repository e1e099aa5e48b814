/** The product-catalogue helpers of the storefront (src/services/fakeStoreApi.js):
    normalising raw catalogue records into the internal product shape,
    client-side search, page arithmetic, category display names and the
    rating-star decomposition. The fetch plumbing is not part of this model. */
module Catalog {
  import opened Common
  import opened Text
  import opened Seqs

  /** The rating summary of a raw catalogue record; either part may be missing. */
  datatype RawRating = RawRating(rate: Option<real>, count: Option<int>)

  /** A product record as the remote catalogue delivers it. */
  datatype RawProduct = RawProduct(
    id: int,
    title: string,
    price: real,
    description: string,
    category: string,
    image: string,
    rating: Option<RawRating>)

  datatype Rating = Rating(rate: real, count: int)

  /** The internal product shape used by every page. `rating` is optional
      because products can also enter the store without passing through
      the normaliser (see ProductsSlice.ProductsState.AddProduct). */
  datatype Product = Product(
    id: int,
    name: string,
    title: string,
    price: real,
    originalPrice: int,
    discount: int,
    image: string,
    images: seq<string>,
    category: string,
    description: string,
    rating: Option<Rating>,
    inStock: bool,
    stock: int,
    brand: string,
    tags: seq<string>,
    specifications: seq<(string, string)>,
    createdAt: string,
    updatedAt: string)

  const DefaultRate: real := 4.0
  const DefaultRatingCount: int := 100
  const DisplayDiscount: int := 17
  const MarkupFactor: real := 1.2
  const MinStock: int := 10
  const StockSpread: int := 50

  /** `Math.round(x)`: the nearest integer, halves rounded up. */
  function Round(x: real): (r: int)
    ensures r as real - 0.5 <= x < r as real + 0.5
  {
    (x + 0.5).Floor
  }

  /** `apiProduct.rating?.rate || 4.0` */
  function RateOrDefault(rating: Option<RawRating>): real {
    if rating.Some? && rating.value.rate.Some? && rating.value.rate.value != 0.0
    then rating.value.rate.value
    else DefaultRate
  }

  /** `apiProduct.rating?.count || 100` */
  function CountOrDefault(rating: Option<RawRating>): int {
    if rating.Some? && rating.value.count.Some? && rating.value.count.value != 0
    then rating.value.count.value
    else DefaultRatingCount
  }

  /** `transformProduct`: `random` is the value `Math.random()` returned and
      `now` the ISO time stamp of the call. */
  function TransformProduct(raw: RawProduct, random: real, now: string): (p: Product)
    requires 0.0 <= random < 1.0
    ensures p.id == raw.id && p.price == raw.price && p.category == raw.category
    ensures p.description == raw.description && p.image == raw.image
    ensures p.name == raw.title && p.title == raw.title && p.images == [raw.image]
    ensures p.tags == [raw.category, "featured"]
    ensures p.discount == 17 && p.inStock
    ensures p.originalPrice as real - 0.5 <= raw.price * 1.2 < p.originalPrice as real + 0.5
    ensures p.rating.Some? && p.rating.value.rate != 0.0 && p.rating.value.count != 0
    ensures raw.rating.Some? && raw.rating.value.rate.Some? && raw.rating.value.rate.value != 0.0
            ==> p.rating.value.rate == raw.rating.value.rate.value
    ensures raw.rating.Some? && raw.rating.value.count.Some? && raw.rating.value.count.value != 0
            ==> p.rating.value.count == raw.rating.value.count.value
    ensures !(raw.rating.Some? && raw.rating.value.rate.Some? && raw.rating.value.rate.value != 0.0)
            ==> p.rating.value.rate == 4.0
    ensures !(raw.rating.Some? && raw.rating.value.count.Some? && raw.rating.value.count.value != 0)
            ==> p.rating.value.count == 100
    ensures p.stock == (random * 50.0).Floor + 10 && 10 <= p.stock < 60
    ensures p.createdAt == now && p.updatedAt == now
  {
    Product(
      raw.id, raw.title, raw.title, raw.price,
      Round(raw.price * MarkupFactor),
      DisplayDiscount,
      raw.image, [raw.image],
      raw.category, raw.description,
      Some(Rating(RateOrDefault(raw.rating), CountOrDefault(raw.rating))),
      true,
      (random * StockSpread as real).Floor + MinStock,
      "Premium Brand",
      [raw.category, "featured"],
      [("Material", "High Quality"), ("Warranty", "1 Year"), ("Shipping", "Free Shipping")],
      now, now)
  }

  /** A missing rating object, a missing rate or a zero rate all become
      4.0 stars; a missing or zero vote count becomes 100 votes. */
  lemma MissingRatingDefaults(raw: RawProduct, random: real, now: string)
    requires 0.0 <= random < 1.0
    ensures raw.rating.None? || raw.rating.value.rate.None? || raw.rating.value.rate == Some(0.0)
            ==> TransformProduct(raw, random, now).rating.value.rate == 4.0
    ensures raw.rating.None? || raw.rating.value.count.None? || raw.rating.value.count == Some(0)
            ==> TransformProduct(raw, random, now).rating.value.count == 100
  {
  }

  /** The synthetic list price is at least the real price once the price
      reaches 2.5 ... */
  lemma OriginalPriceCoversPrice(raw: RawProduct, random: real, now: string)
    requires 0.0 <= random < 1.0 && raw.price >= 2.5
    ensures TransformProduct(raw, random, now).originalPrice as real >= raw.price
  {
  }

  /** ... but rounding can put it below a small price: 0.30 gets a list
      price of 0. */
  lemma SmallPriceListedBelowPrice(raw: RawProduct, random: real, now: string)
    requires 0.0 <= random < 1.0 && raw.price == 0.3
    ensures TransformProduct(raw, random, now).originalPrice == 0
  {
  }

  /** `transformProducts`: one random draw per product, order kept. */
  function TransformProducts(raws: seq<RawProduct>, randoms: seq<real>, now: string): (ps: seq<Product>)
    requires |randoms| == |raws|
    requires forall i :: 0 <= i < |randoms| ==> 0.0 <= randoms[i] < 1.0
    ensures |ps| == |raws|
    ensures forall i :: 0 <= i < |raws| ==> ps[i] == TransformProduct(raws[i], randoms[i], now)
  {
    seq(|raws|, i requires 0 <= i < |raws| => TransformProduct(raws[i], randoms[i], now))
  }

  /** The search predicate of `searchProducts` (and of the catalogue filter):
      the lower-cased query occurs in the lower-cased title, description
      or category. */
  predicate MatchesQuery(p: Product, query: string) {
    || ContainsIgnoreCase(p.title, query)
    || ContainsIgnoreCase(p.description, query)
    || ContainsIgnoreCase(p.category, query)
  }

  /** The filter of `searchProducts` over a given product list. */
  function SearchProducts(query: string, products: seq<Product>): (r: seq<Product>)
    ensures forall i :: 0 <= i < |r| ==> r[i] in products && MatchesQuery(r[i], query)
    ensures forall i :: 0 <= i < |products| && MatchesQuery(products[i], query) ==> products[i] in r
    ensures forall x :: multiset(r)[x] == if MatchesQuery(x, query) then multiset(products)[x] else 0
  {
    FilterCounts(products, p => MatchesQuery(p, query));
    Filter(products, p => MatchesQuery(p, query))
  }

  /** Search keeps the input order. */
  lemma SearchKeepsOrder(query: string, products: seq<Product>)
    ensures IsSubsequence(SearchProducts(query, products), products)
  {
    FilterIsSubsequence(products, p => MatchesQuery(p, query));
  }

  /** The empty query matches everything. */
  lemma EmptyQueryMatchesAll(products: seq<Product>)
    ensures SearchProducts("", products) == products
  {
    forall i | 0 <= i < |products| ensures MatchesQuery(products[i], "") {
      ContainsEmpty(Lower(products[i].title));
    }
    FilterAll(products, p => MatchesQuery(p, ""));
  }

  /** The query is compared without regard to case. */
  lemma SearchIgnoresQueryCase(query: string, products: seq<Product>)
    ensures SearchProducts(Lower(query), products) == SearchProducts(query, products)
  {
    LowerIdempotent(query);
    FilterExt(products, p => MatchesQuery(p, Lower(query)), p => MatchesQuery(p, query));
  }

  // ----- pagination -----

  /** The index `Array.prototype.slice` uses for a start or end argument i
      on a list of length n (negative values count from the end). */
  function SliceIndex(i: int, n: nat): (r: nat)
    ensures r <= n
    ensures 0 <= i ==> r == if i < n then i else n
  {
    if i < 0 then (if n + i < 0 then 0 else n + i)
    else if i < n then i else n
  }

  /** `s.slice(start, end)` */
  function Slice<T>(s: seq<T>, start: int, end: int): seq<T> {
    var lo := SliceIndex(start, |s|);
    var hi := SliceIndex(end, |s|);
    if lo < hi then s[lo..hi] else []
  }

  function Min(a: int, b: int): int {
    if a < b then a else b
  }

  /** `Math.ceil(n / limit)` for a positive limit. */
  function CeilDiv(n: nat, limit: nat): (r: nat)
    requires limit >= 1
    ensures n <= r * limit
    ensures n > 0 ==> (r - 1) * limit < n
    ensures n == 0 ==> r == 0
  {
    var r := (n + limit - 1) / limit;
    assert r * limit + (n + limit - 1) % limit == n + limit - 1;
    r
  }

  /** Page k ends where page k + 1 starts. */
  lemma PageEnd(page: int, limit: int)
    ensures (page - 1) * limit + limit == page * limit
  {
  }

  /** From page 1 on, the slice bounds are non-negative, so `slice` only
      clips them to the list. */
  lemma PageSlice(products: seq<Product>, page: int, limit: int)
    requires limit >= 1
    ensures page >= 1 ==>
      (Slice(products, (page - 1) * limit, (page - 1) * limit + limit)
       == products[Min((page - 1) * limit, |products|)..Min(page * limit, |products|)])
  {
    if page >= 1 {
      MulMonotone(0, page - 1, limit);
      PageEnd(page, limit);
    }
  }

  datatype PageResult = PageResult(
    products: seq<Product>,
    totalProducts: nat,
    totalPages: nat,
    currentPage: int,
    hasNextPage: bool,
    hasPrevPage: bool)

  /** The page arithmetic of `getProductsWithPagination`, on the already
      transformed product list. */
  function Paginate(products: seq<Product>, page: int, limit: int): (r: PageResult)
    requires limit >= 1
    ensures page >= 1 ==>
      r.products == products[Min((page - 1) * limit, |products|)..Min(page * limit, |products|)]
    ensures r.totalProducts == |products| && r.currentPage == page
    ensures |products| <= r.totalPages * limit
    ensures |products| > 0 ==> (r.totalPages - 1) * limit < |products|
    ensures |products| == 0 ==> r.totalPages == 0
    ensures r.hasNextPage <==> page * limit < |products|
    ensures r.hasPrevPage <==> page > 1
  {
    var startIndex := (page - 1) * limit;
    var endIndex := startIndex + limit;
    PageEnd(page, limit);
    PageSlice(products, page, limit);
    PageResult(
      Slice(products, startIndex, endIndex),
      |products|,
      CeilDiv(|products|, limit),
      page,
      endIndex < |products|,
      page > 1)
  }

  /** Pages 1 to k, one after the other. */
  function PagesUpTo(products: seq<Product>, limit: int, k: nat): seq<Product>
    requires limit >= 1
  {
    if k == 0 then [] else PagesUpTo(products, limit, k - 1) + Paginate(products, k, limit).products
  }

  lemma {:induction false} PagesUpToPrefix(products: seq<Product>, limit: int, k: nat)
    requires limit >= 1
    ensures PagesUpTo(products, limit, k) == products[..Min(k * limit, |products|)]
  {
    if k > 0 {
      PagesUpToPrefix(products, limit, k - 1);
      var a := Min((k - 1) * limit, |products|);
      var b := Min(k * limit, |products|);
      assert (k - 1) * limit + limit == k * limit;
      assert products[..a] + products[a..b] == products[..b];
    }
  }

  /** Reading every page in order yields the whole catalogue. */
  lemma AllPagesCoverCatalogue(products: seq<Product>, limit: int)
    requires limit >= 1
    ensures PagesUpTo(products, limit, Paginate(products, 1, limit).totalPages) == products
  {
    var t := Paginate(products, 1, limit).totalPages;
    PagesUpToPrefix(products, limit, t);
    assert Min(t * limit, |products|) == |products|;
  }

  /** Every page from 1 to totalPages holds at least one product. */
  lemma PagesInRangeAreNonEmpty(products: seq<Product>, page: int, limit: int)
    requires limit >= 1
    requires 1 <= page <= CeilDiv(|products|, limit)
    ensures Paginate(products, page, limit).products != []
  {
    var n := |products|;
    var t := CeilDiv(n, limit);
    assert (t - 1) * limit < n;
    MulMonotone(page - 1, t - 1, limit);
    var lo := (page - 1) * limit;
    assert lo < n;
    assert page * limit == lo + limit;
    assert Paginate(products, page, limit).products == products[lo..Min(page * limit, n)];
  }

  lemma MulMonotone(a: int, b: int, c: int)
    requires 0 <= a <= b && c >= 0
    ensures a * c <= b * c
  {
  }

  // ----- category names and rating stars -----

  const CategoryDisplayNames: map<string, string> := map[
    "men's clothing" := "Men's Fashion",
    "women's clothing" := "Women's Fashion",
    "jewelery" := "Jewelry",
    "electronics" := "Electronics"]

  /** `getCategoryDisplayName`: the mapped name of a known category,
      otherwise the category with its first character upper-cased. */
  function CategoryDisplayName(category: string): (r: string)
    ensures category in CategoryDisplayNames ==> r == CategoryDisplayNames[category]
    ensures category !in CategoryDisplayNames ==>
      |r| == |category| && (category != "" ==> r[0] == UpperChar(category[0]) && r[1..] == category[1..])
  {
    if category in CategoryDisplayNames && CategoryDisplayNames[category] != ""
    then CategoryDisplayNames[category]
    else Capitalize(category)
  }

  datatype Stars = Stars(fullStars: int, hasHalfStar: bool, emptyStars: int, percentage: real)

  /** `getRatingStars` */
  function RatingStars(rating: real): (r: Stars)
    ensures r.fullStars as real <= rating < r.fullStars as real + 1.0
    ensures r.hasHalfStar <==> rating != r.fullStars as real
    ensures r.fullStars + (if r.hasHalfStar then 1 else 0) + r.emptyStars == 5
    ensures 0.0 <= rating <= 5.0 ==> 0 <= r.fullStars <= 5 && 0 <= r.emptyStars <= 5
    ensures r.percentage == rating * 20.0
  {
    var fullStars := rating.Floor;
    var hasHalfStar := rating != fullStars as real;
    Stars(fullStars, hasHalfStar, 5 - fullStars - (if hasHalfStar then 1 else 0), rating / 5.0 * 100.0)
  }

  /** `product.rating?.rate || 0`, the rating used for display and sorting. */
  function RateOrZero(p: Product): (r: real)
    ensures p.rating.None? ==> r == 0.0
    ensures p.rating.Some? ==> r == p.rating.value.rate
  {
    if p.rating.Some? then p.rating.value.rate else 0.0
  }
}
