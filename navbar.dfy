/** The navigation bar: the free-shipping banner and the cart badge. */
module Navbar {
  import opened Wrappers
  import Pricing

  /**
   * `Math.max(0, 50 - (cartTotal || 0))`: a missing cart total counts as 0. For a
   * known total this is the reference rule's remaining amount.
   */
  function RemainingForFreeShipping(cartTotal: Option<int>): (r: int)
    ensures r >= 0
    ensures cartTotal.Some? ==> r == Pricing.Quote(cartTotal.value).remaining
    ensures cartTotal.None? ==> r == 5000
  {
    var freeShippingThreshold := 5000;
    var total := cartTotal.GetOr(0);
    if 0 > freeShippingThreshold - total then 0 else freeShippingThreshold - total
  }

  /** The three banner messages. */
  datatype Banner =
    | StillNeeded(amount: int)   // "Noch … CHF bis zum kostenlosen Versand!"
    | FreeShipping               // "Kostenloser Versand!"
    | FreeFrom50                 // "Kostenloser Versand ab 50 CHF"

  /**
   * Exactly one message is shown: the amount still needed for 0 < total < 50 CHF,
   * "free shipping" from 50 CHF on (when the reference rule charges no shipping), and
   * the generic message otherwise, including when there is no cart total. The amount
   * shown lies strictly between 0 and 50 CHF.
   */
  function ShippingBanner(cartTotal: Option<int>): (b: Banner)
    ensures b.StillNeeded? <==> cartTotal.Some? && 0 < cartTotal.value < 5000
    ensures b.FreeShipping? <==> cartTotal.Some? && Pricing.Quote(cartTotal.value).shipping == 0
    ensures b.FreeFrom50? <==> cartTotal.None? || cartTotal.value <= 0
    ensures b.StillNeeded? ==> 0 < b.amount < 5000 && b.amount == 5000 - cartTotal.value
  {
    match cartTotal
    case Some(total) =>
      if total > 0 && total < 5000 then StillNeeded(RemainingForFreeShipping(cartTotal))
      else if total >= 5000 then FreeShipping
      else FreeFrom50
    case None => FreeFrom50
  }

  /** The badge on the cart icon: shown, with the count, only for a positive item count. */
  function CartBadge(cartCount: int): (badge: Option<int>)
    ensures badge.Some? <==> cartCount > 0
    ensures badge.Some? ==> badge.value == cartCount
  {
    if cartCount > 0 then Some(cartCount) else None
  }
}
