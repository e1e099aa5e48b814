/** The product detail page (src/pages/ProductDetail.jsx): its breadcrumb
    trail, the star and price display rules, the quantity selector and the
    add-to-cart loop. Redux dispatches are recorded as a list of events. */
module ProductDetail {
  import opened Common
  import Catalog
  import Breadcrumbs

  /** An action dispatched to the cart store. */
  datatype CartEvent = AddItem(product: Catalog.Product)

  /** `quantity` copies of the same event, in dispatch order. */
  function Repeat(e: CartEvent, n: nat): (r: seq<CartEvent>)
    ensures |r| == n && forall i :: 0 <= i < n ==> r[i] == e
  {
    seq(n, _ => e)
  }

  /** Every one of the `n` repeated events is `e`, so `e` occurs `n` times. */
  lemma {:induction false} RepeatCount(e: CartEvent, n: nat)
    ensures multiset(Repeat(e, n))[e] == n
  {
    if n > 0 {
      RepeatCount(e, n - 1);
      assert Repeat(e, n) == Repeat(e, n - 1) + [e];
    }
  }

  /** The stars shown: `getRatingStars(rating?.rate || 0)`. */
  function DisplayedStars(p: Catalog.Product): (r: Catalog.Stars)
    ensures p.rating.None? ==> r.fullStars == 0 && !r.hasHalfStar && r.emptyStars == 5
    ensures p.rating.Some? ==> r == Catalog.RatingStars(p.rating.value.rate)
  {
    Catalog.RatingStars(Catalog.RateOrZero(p))
  }

  /** The "You save" line: shown when the product has a non-zero discount,
      and then the list price minus the price. */
  function Savings(p: Catalog.Product): (r: Option<real>)
    ensures r.Some? <==> p.discount != 0
    ensures r.Some? ==> p.price + r.value == p.originalPrice as real
  {
    if p.discount != 0 then Some(p.originalPrice as real - p.price) else None
  }

  /** Every normalised product shows the line, and it can be negative: a
      price of 0.30 has a rounded list price of 0, so the page offers a
      saving of -0.30. */
  lemma CheapProductShowsNegativeSaving(raw: Catalog.RawProduct, random: real, now: string)
    requires 0.0 <= random < 1.0 && raw.price == 0.3
    ensures Savings(Catalog.TransformProduct(raw, random, now)) == Some(-0.3)
  {
    Catalog.SmallPriceListedBelowPrice(raw, random, now);
  }

  /** From a list price of 2.5 up the saving is never negative. */
  lemma NormalisedSavingNonNegative(raw: Catalog.RawProduct, random: real, now: string)
    requires 0.0 <= random < 1.0 && raw.price >= 2.5
    ensures Savings(Catalog.TransformProduct(raw, random, now)).Some?
    ensures Savings(Catalog.TransformProduct(raw, random, now)).value >= 0.0
  {
    Catalog.OriginalPriceCoversPrice(raw, random, now);
  }

  /** The page's own breadcrumb entries: Products, the category, the title. */
  function DetailCrumbs(p: Catalog.Product): (items: seq<Breadcrumbs.Crumb>)
    ensures |items| == 3
    ensures items[0] == Breadcrumbs.Crumb("Products", Some("/products"))
    ensures items[1].caption == Catalog.CategoryDisplayName(p.category)
    ensures items[1].href == Some("/products?category=" + p.category)
    ensures items[2] == Breadcrumbs.Crumb(p.title, None)
  {
    [ Breadcrumbs.Crumb("Products", Some("/products")),
      Breadcrumbs.Crumb(Catalog.CategoryDisplayName(p.category), Some("/products?category=" + p.category)),
      Breadcrumbs.Crumb(p.title, None) ]
  }

  /** Rendered, the trail is Home, Products and the category as links, then
      the title as plain text. */
  lemma DetailTrailLinks(p: Catalog.Product)
    ensures var r := Breadcrumbs.Render(DetailCrumbs(p));
            && |r| == 4
            && r[0].link == Some("/") && r[1].link == Some("/products")
            && r[2].link == Some("/products?category=" + p.category)
            && r[3] == Breadcrumbs.RenderedCrumb(p.title, None, true)
  {
    var items := DetailCrumbs(p);
    var r := Breadcrumbs.Render(items);
    assert Breadcrumbs.AllItems(items)[2] == items[1];
    assert r[2].link.Some?;
  }

  /** The page's local state and the events it has dispatched. */
  class ProductDetailState {
    var quantity: int
    var dispatched: seq<CartEvent>

    ghost predicate Valid()
      reads this
    {
      quantity >= 1
    }

    constructor ()
      ensures Valid() && quantity == 1 && dispatched == []
    {
      quantity := 1;
      dispatched := [];
    }

    /** The minus button: `Math.max(1, quantity - 1)`. */
    method Decrement()
      requires Valid()
      modifies this
      ensures Valid() && dispatched == old(dispatched)
      ensures quantity == if old(quantity) > 1 then old(quantity) - 1 else 1
    {
      quantity := if quantity - 1 > 1 then quantity - 1 else 1;
    }

    /** The plus button, which is disabled when the product is out of stock. */
    method Increment(inStock: bool)
      requires Valid()
      modifies this
      ensures Valid() && dispatched == old(dispatched)
      ensures quantity == if inStock then old(quantity) + 1 else old(quantity)
    {
      if inStock {
        quantity := quantity + 1;
      }
    }

    /** `handleAddToCart`: nothing without a current product, otherwise one
        `addItem(product)` per unit of the selected quantity. */
    method HandleAddToCart(currentProduct: Option<Catalog.Product>)
      requires Valid()
      modifies this
      ensures Valid() && quantity == old(quantity)
      ensures currentProduct.None? ==> dispatched == old(dispatched)
      ensures currentProduct.Some? ==>
        dispatched == old(dispatched) + Repeat(AddItem(currentProduct.value), quantity)
    {
      if currentProduct.None? {
        return;
      }
      var e := AddItem(currentProduct.value);
      var i := 0;
      while i < quantity
        invariant 0 <= i <= quantity
        invariant quantity == old(quantity)
        invariant dispatched == old(dispatched) + Repeat(e, i)
      {
        dispatched := dispatched + [e];
        assert Repeat(e, i + 1) == Repeat(e, i) + [e];
        i := i + 1;
      }
    }

    /** `handleBuyNow`: add to the cart, then go to the cart page. */
    method HandleBuyNow(currentProduct: Option<Catalog.Product>) returns (route: string)
      requires Valid()
      modifies this
      ensures Valid() && quantity == old(quantity)
      ensures currentProduct.None? ==> dispatched == old(dispatched)
      ensures currentProduct.Some? ==>
        dispatched == old(dispatched) + Repeat(AddItem(currentProduct.value), quantity)
      ensures route == "/cart"
    {
      HandleAddToCart(currentProduct);
      route := "/cart";
    }
  }
}
