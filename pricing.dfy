/**
 * The storefront's pricing rule, stated once: shipping is free from 50 CHF on and a
 * flat 8 CHF below it, tax is 0, and the total is the subtotal plus tax plus shipping.
 * Amounts are integer Rappen (1 CHF = 100 Rappen).
 *
 * The rule is written out separately in the checkout page (twice), the cart page and
 * the navigation bar; each of those copies is modelled in its own module and proved
 * equal to this reference.
 */
module Pricing {

  const FreeShippingThreshold: int := 5000
  const FlatShipping: int := 800
  const Tax: int := 0

  /** The figures of an order summary. */
  datatype Breakdown = Breakdown(subtotal: int, tax: int, shipping: int, total: int, remaining: int)

  /**
   * The reference rule. Shipping is 0 or 8 CHF, free exactly from the threshold on
   * (so exactly 50 CHF ships free), tax is 0, the total adds up, and the amount still
   * needed for free shipping is never negative and is 0 exactly when shipping is free.
   */
  function Quote(subtotal: int): (q: Breakdown)
    ensures q.subtotal == subtotal && q.tax == 0
    ensures q.shipping == 0 <==> subtotal >= 5000
    ensures q.shipping == 800 <==> subtotal < 5000
    ensures q.total == subtotal + q.shipping
    ensures q.remaining >= 0
    ensures q.remaining == 0 <==> q.shipping == 0
    ensures q.remaining > 0 ==> q.remaining == 5000 - subtotal
  {
    var shipping := if subtotal >= FreeShippingThreshold then 0 else FlatShipping;
    var remaining := if FreeShippingThreshold - subtotal > 0 then FreeShippingThreshold - subtotal else 0;
    Breakdown(subtotal, Tax, shipping, subtotal + Tax + shipping, remaining)
  }

  /** The threshold itself ships free; one Rappen less pays the flat fee. */
  lemma ThresholdBoundary()
    ensures Quote(5000).shipping == 0 && Quote(5000).total == 5000
    ensures Quote(4999).shipping == 800 && Quote(4999).total == 5799
  {
  }

  /** Adding to the cart never makes shipping more expensive. */
  lemma ShippingMonotone(a: int, b: int)
    requires a <= b
    ensures Quote(b).shipping <= Quote(a).shipping
    ensures Quote(b).remaining <= Quote(a).remaining
  {
  }
}
