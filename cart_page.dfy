/** The cart page's order summary (src/pages/Cart.jsx): shipping, tax, grand
    total, the free-shipping banner and the checkout route. Amounts are exact
    reals; the cart ledger itself is not part of this model. */
module CartPage {
  import opened Common

  const FreeShippingThreshold: real := 50.0
  const FlatShipping: real := 5.99
  const TaxRate: real := 0.1

  /** `shippingCost`: free only strictly above the threshold. */
  function ShippingCost(totalAmount: real): (r: real)
    ensures r == 0.0 <==> totalAmount > FreeShippingThreshold
    ensures r != 0.0 ==> r == FlatShipping
  {
    if totalAmount > FreeShippingThreshold then 0.0 else FlatShipping
  }

  /** `tax`: ten per cent of the cart total. */
  function Tax(totalAmount: real): (r: real)
    ensures r * 10.0 == totalAmount
  {
    totalAmount * TaxRate
  }

  /** `finalTotal`: total plus shipping plus tax. */
  function FinalTotal(totalAmount: real): (r: real)
    ensures r == totalAmount * 1.1 + ShippingCost(totalAmount)
    ensures totalAmount >= 0.0 ==> r >= totalAmount
    ensures totalAmount >= 0.0 ==> r - totalAmount - ShippingCost(totalAmount) == Tax(totalAmount)
  {
    totalAmount + ShippingCost(totalAmount) + Tax(totalAmount)
  }

  /** The order summary is rendered only for a non-empty cart; an empty
      cart shows the "Your cart is empty" view instead. */
  predicate ShowsSummary(itemCount: nat) {
    itemCount != 0
  }

  /** The "add X more for free shipping" banner: part of the summary, shown
      below the threshold, with the amount still missing. */
  function FreeShippingBanner(itemCount: nat, totalAmount: real): (r: Option<real>)
    ensures r.Some? <==> itemCount != 0 && totalAmount < FreeShippingThreshold
    ensures r.Some? ==> r.value > 0.0 && totalAmount + r.value == FreeShippingThreshold
  {
    if ShowsSummary(itemCount) && totalAmount < FreeShippingThreshold
    then Some(FreeShippingThreshold - totalAmount)
    else None
  }

  /** The summary's shipping line reads "FREE" when the cost is zero. */
  function ShowsFree(itemCount: nat, totalAmount: real): (r: bool)
    ensures r <==> itemCount != 0 && totalAmount > FreeShippingThreshold
  {
    ShowsSummary(itemCount) && ShippingCost(totalAmount) == 0.0
  }

  /** Banner and free shipping never show together. On a non-empty cart
      one of them shows at every total except exactly 50, where neither
      does; an empty cart shows neither. */
  lemma BannerAndFreeShippingExclusive(itemCount: nat, totalAmount: real)
    ensures !(FreeShippingBanner(itemCount, totalAmount).Some? && ShowsFree(itemCount, totalAmount))
    ensures itemCount != 0 && totalAmount != FreeShippingThreshold ==>
      FreeShippingBanner(itemCount, totalAmount).Some? || ShowsFree(itemCount, totalAmount)
    ensures itemCount == 0 || totalAmount == FreeShippingThreshold ==>
      FreeShippingBanner(itemCount, totalAmount).None? && !ShowsFree(itemCount, totalAmount)
  {
  }

  /** Reaching the banner's amount does not yet earn free shipping: the
      customer lands exactly on the threshold and still pays 5.99. */
  lemma BannerAmountFallsShort(itemCount: nat, totalAmount: real)
    requires FreeShippingBanner(itemCount, totalAmount).Some?
    ensures ShippingCost(totalAmount + FreeShippingBanner(itemCount, totalAmount).value) == FlatShipping
  {
  }

  /** `handleCheckout`: unauthenticated shoppers go to the login page. */
  function CheckoutRoute(isAuthenticated: bool): (route: string)
    ensures route == "/login" <==> !isAuthenticated
    ensures route == "/checkout" <==> isAuthenticated
  {
    if !isAuthenticated then "/login" else "/checkout"
  }

  /** Crossing the threshold can lower the grand total: 50 costs more in
      total than 50.01. */
  lemma FinalTotalNotMonotone()
    ensures FinalTotal(50.0) > FinalTotal(50.01)
  {
  }
}
