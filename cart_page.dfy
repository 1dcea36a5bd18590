/** The cart page: its order summary and the per-line quantity buttons. */
module CartPage {
  import opened Wrappers
  import Pricing

  /** A line of the cart store: one product with its unit price (Rappen) and quantity. */
  datatype CartLine = CartLine(id: string, name: string, price: int, image: string, quantity: int)

  /** The summary as the cart page computes it, from the store's cart total. */
  function Summary(subtotal: int): (b: Pricing.Breakdown)
    ensures b == Pricing.Quote(subtotal)
  {
    var freeShippingThreshold := 5000;
    var shipping := if subtotal >= freeShippingThreshold then 0 else 800;
    var tax := 0;
    var total := subtotal + shipping + tax;
    var remaining := if 0 > freeShippingThreshold - subtotal then 0 else freeShippingThreshold - subtotal;
    Pricing.Breakdown(subtotal, tax, shipping, total, remaining)
  }

  /** An empty cart shows the "empty" page and no summary at all. */
  function View(cart: seq<CartLine>, cartTotal: int): (summary: Option<Pricing.Breakdown>)
    ensures summary.None? <==> cart == []
    ensures summary.Some? ==> summary.value == Pricing.Quote(cartTotal)
  {
    if |cart| == 0 then None else Some(Summary(cartTotal))
  }

  /**
   * The "Noch … CHF für kostenlosen Versand" hint is shown exactly when shipping is
   * charged, and then the amount it names is positive.
   */
  function ShowsFreeShippingHint(b: Pricing.Breakdown): (shown: bool)
    ensures b == Pricing.Quote(b.subtotal) ==> (shown <==> b.subtotal < Pricing.FreeShippingThreshold)
  {
    b.shipping > 0
  }

  lemma HintNamesPositiveAmount(subtotal: int)
    ensures ShowsFreeShippingHint(Summary(subtotal)) <==> Summary(subtotal).remaining > 0
    ensures ShowsFreeShippingHint(Summary(subtotal)) <==> subtotal < 5000
  {
  }

  /** The amount shown on a line: unit price times quantity. */
  function LineTotal(line: CartLine): (amount: int)
    ensures line.quantity == 0 ==> amount == 0
    ensures line.quantity == 1 ==> amount == line.price
    ensures line.price >= 0 && line.quantity >= 0 ==> amount >= 0
  {
    line.price * line.quantity
  }

  /** One more unit of a line adds exactly its unit price to the line's amount. */
  lemma LineTotalStep(line: CartLine)
    ensures LineTotal(line.(quantity := line.quantity + 1)) == LineTotal(line) + line.price
  {
  }

  /** What a quantity button asks the cart store to do: set this line's quantity. */
  datatype QuantityRequest = QuantityRequest(id: string, quantity: int)

  /** The minus button: one less, for this line only (the store decides what 0 means). */
  function DecreaseRequest(line: CartLine): (r: QuantityRequest)
    ensures r.id == line.id && r.quantity == line.quantity - 1
  {
    QuantityRequest(line.id, line.quantity - 1)
  }

  /** The plus button: one more, for this line only. */
  function IncreaseRequest(line: CartLine): (r: QuantityRequest)
    ensures r.id == line.id && r.quantity == line.quantity + 1
  {
    QuantityRequest(line.id, line.quantity + 1)
  }

  /** Pressing plus and then minus on the resulting line asks for the original quantity. */
  lemma IncreaseThenDecrease(line: CartLine)
    ensures DecreaseRequest(line.(quantity := IncreaseRequest(line).quantity))
            == QuantityRequest(line.id, line.quantity)
  {
  }
}
