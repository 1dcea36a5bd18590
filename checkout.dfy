/**
 * The checkout page: its two copies of the pricing rule, the order payload built from
 * the cart, the outcome dispatch of the payment form, the detection of the payment
 * method, and the restoring of the cart from a failed order when the customer retries.
 *
 * Every network response and every result of the payment SDK is an input here.
 */
module Checkout {
  import opened Wrappers
  import Text
  import Seqs
  import Pricing
  import CartPage

  // ----------------------------------------------------------------------------------
  // Pricing, written out twice on this page.

  datatype Charges = Charges(tax: int, shipping: int, total: int)

  /** The figures `handleFormSubmit` computes before the order is created. */
  function SubmitCharges(cartTotal: int): (c: Charges)
    ensures c.tax == Pricing.Quote(cartTotal).tax
    ensures c.shipping == Pricing.Quote(cartTotal).shipping
    ensures c.total == Pricing.Quote(cartTotal).total
  {
    var freeShippingThreshold := 5000;
    var tax := 0;
    var shipping := if cartTotal >= freeShippingThreshold then 0 else 800;
    Charges(tax, shipping, cartTotal + tax + shipping)
  }

  /** The figures of the order summary shown beside the form. */
  function SummaryFigures(cartTotal: int): (b: Pricing.Breakdown)
    ensures b == Pricing.Quote(cartTotal)
  {
    var freeShippingThreshold := 5000;
    var tax := 0;
    var shipping := if cartTotal >= freeShippingThreshold then 0 else 800;
    var total := cartTotal + tax + shipping;
    var remaining := if 0 > freeShippingThreshold - cartTotal then 0 else freeShippingThreshold - cartTotal;
    Pricing.Breakdown(cartTotal, tax, shipping, total, remaining)
  }

  /** The summary shows the same tax, shipping and total as the submit handler computes. */
  lemma SummaryMatchesSubmit(cartTotal: int)
    ensures SubmitCharges(cartTotal)
            == Charges(SummaryFigures(cartTotal).tax, SummaryFigures(cartTotal).shipping, SummaryFigures(cartTotal).total)
  {
  }

  // ----------------------------------------------------------------------------------
  // The order payload.

  datatype OrderItemRequest = OrderItemRequest(productId: string, quantity: int)

  /** `cart.map(item => ({ productId: item.id, quantity: item.quantity }))`. */
  function OrderItems(cart: seq<CartPage.CartLine>): (items: seq<OrderItemRequest>)
    ensures |items| == |cart|
    ensures forall i :: 0 <= i < |cart| ==>
              items[i].productId == cart[i].id && items[i].quantity == cart[i].quantity
  {
    if cart == [] then [] else [OrderItemRequest(cart[0].id, cart[0].quantity)] + OrderItems(cart[1..])
  }

  /** The signed-in customer; an absent e-mail or phone is "". */
  datatype User = User(id: string, email: string, phone: string)

  datatype CheckoutForm = CheckoutForm(
    firstName: string, lastName: string, email: string, phone: string,
    address: string, city: string, zipCode: string, country: string)

  /** The form as the page first shows it: contact fields from the customer, country "Schweiz". */
  function InitialForm(user: Option<User>): (f: CheckoutForm)
    ensures f.country == "Schweiz"
    ensures f.email == (if user.Some? then user.value.email else "")
    ensures f.phone == (if user.Some? then user.value.phone else "")
    ensures f.firstName == f.lastName == f.address == f.city == f.zipCode == ""
  {
    var email := if user.Some? then Text.OrElse(user.value.email, "") else "";
    var phone := if user.Some? then Text.OrElse(user.value.phone, "") else "";
    CheckoutForm("", "", email, phone, "", "", "", "Schweiz")
  }

  datatype ShippingAddress = ShippingAddress(
    firstName: string, lastName: string, address: string, city: string, zipCode: string, country: string)

  /** The body of the order-creating request. It carries no amount. */
  datatype OrderRequest = OrderRequest(
    userId: string, items: seq<OrderItemRequest>, shippingAddress: ShippingAddress, paymentMethod: string)

  /**
   * The order-creating request: the customer, one item per cart line, the address
   * fields of the form (without e-mail and phone) and CARD until the payment says otherwise.
   */
  function OrderPayload(user: User, cart: seq<CartPage.CartLine>, form: CheckoutForm): (r: OrderRequest)
    ensures r.userId == user.id && r.paymentMethod == "CARD"
    ensures |r.items| == |cart| && forall i :: 0 <= i < |cart| ==> r.items[i].productId == cart[i].id && r.items[i].quantity == cart[i].quantity
    ensures r.shippingAddress.firstName == form.firstName && r.shippingAddress.lastName == form.lastName
    ensures r.shippingAddress.address == form.address && r.shippingAddress.city == form.city
    ensures r.shippingAddress.zipCode == form.zipCode && r.shippingAddress.country == form.country
  {
    OrderRequest(
      user.id,
      OrderItems(cart),
      ShippingAddress(form.firstName, form.lastName, form.address, form.city, form.zipCode, form.country),
      "CARD")
  }

  /** What the order-creating request returned. */
  datatype OrderResponse =
    | OrderCreated(orderId: string)
    | OrderRejected(error: string)     // not ok; `errorData.error`, "" when missing
    | OrderThrew(message: string)

  /** What the payment-intent request returned. */
  datatype IntentResponse =
    | IntentCreated(clientSecret: string)
    | IntentRejected                   // not ok
    | IntentThrew(message: string)

  datatype Step = FormStep | PaymentStep

  datatype FormSubmitOutcome = FormSubmitOutcome(
    request: Option<OrderRequest>, step: Step, orderId: Option<string>,
    clientSecret: Option<string>, error: Option<string>, loading: bool)

  const LoginRequired := "Bitte melden Sie sich an, um eine Bestellung aufzugeben"
  const OrderCreationFailed := "Fehler beim Erstellen der Bestellung"
  const IntentCreationFailed := "Failed to create payment intent"
  const PaymentSetupFailed := "Fehler beim Erstellen der Zahlung"

  /**
   * `handleFormSubmit`: without a signed-in customer nothing is sent. Otherwise the
   * order is created from the cart and the form; the page moves on to payment exactly
   * when both the order and the payment intent were created. An order can be created
   * while the intent fails: the order id is then kept, the page stays on the form and
   * shows an error. The loading flag always ends cleared.
   */
  function HandleFormSubmit(
    user: Option<User>, cart: seq<CartPage.CartLine>, form: CheckoutForm,
    order: OrderResponse, intent: IntentResponse): (r: FormSubmitOutcome)
    ensures !r.loading
    ensures r.request.Some? <==> user.Some?
    ensures user.None? ==> r.error == Some(LoginRequired)
    ensures r.request.Some? ==>
              && r.request.value.userId == user.value.id
              && |r.request.value.items| == |cart|
              && r.request.value.items == OrderItems(cart)
              && r.request.value.paymentMethod == "CARD"
    ensures r.request.Some? ==> r.request.value == OrderPayload(user.value, cart, form)
    ensures r.orderId.Some? <==> user.Some? && order.OrderCreated?
    ensures r.orderId.Some? ==> r.orderId.value == order.orderId
    ensures r.step == PaymentStep <==> user.Some? && order.OrderCreated? && intent.IntentCreated?
    ensures r.step == PaymentStep ==> r.error.None? && r.clientSecret == Some(intent.clientSecret)
    ensures r.step == FormStep ==> r.clientSecret.None? && r.error.Some? && r.error.value != ""
    ensures user.Some? && order.OrderRejected? ==> r.error == Some(Text.OrElse(order.error, OrderCreationFailed))
    ensures user.Some? && order.OrderThrew? ==> r.error == Some(Text.OrElse(order.message, OrderCreationFailed))
    ensures user.Some? && order.OrderCreated? && intent.IntentRejected? ==> r.error == Some(IntentCreationFailed)
    ensures user.Some? && order.OrderCreated? && intent.IntentThrew? ==>
              r.error == Some(Text.OrElse(intent.message, PaymentSetupFailed))
  {
    match user
    case None => FormSubmitOutcome(None, FormStep, None, None, Some(LoginRequired), false)
    case Some(u) =>
      var request := OrderPayload(u, cart, form);
      match order
      case OrderRejected(e) =>
        FormSubmitOutcome(Some(request), FormStep, None, None,
          Some(Text.OrElse(Text.OrElse(e, OrderCreationFailed), OrderCreationFailed)), false)
      case OrderThrew(m) =>
        FormSubmitOutcome(Some(request), FormStep, None, None, Some(Text.OrElse(m, OrderCreationFailed)), false)
      case OrderCreated(id) =>
        match intent
        case IntentCreated(secret) => FormSubmitOutcome(Some(request), PaymentStep, Some(id), Some(secret), None, false)
        case IntentRejected =>
          FormSubmitOutcome(Some(request), FormStep, Some(id), None, Some(IntentCreationFailed), false)
        case IntentThrew(m) =>
          FormSubmitOutcome(Some(request), FormStep, Some(id), None, Some(Text.OrElse(m, PaymentSetupFailed)), false)
  }

  // ----------------------------------------------------------------------------------
  // Payment-method detection, written out twice.

  /**
   * The detection in `handleSubmit`: CARD by default, TWINT exactly when the first
   * charge's payment-method type is "twint"; "card" and any other type give CARD.
   */
  function DetectFromCharge(chargeType: Option<string>): (m: string)
    ensures m == "TWINT" <==> chargeType == Some("twint")
    ensures m == "CARD" <==> chargeType != Some("twint")
  {
    var paymentMethod := "CARD";
    match chargeType
    case Some(t) => if t == "twint" then "TWINT" else if t == "card" then "CARD" else paymentMethod
    case None => paymentMethod
  }

  /**
   * The detection in `handlePaymentSuccess`: a method passed in (non-empty) wins;
   * otherwise it detects exactly as `handleSubmit` does.
   */
  function ResolvePaymentMethod(given: string, chargeType: Option<string>): (m: string)
    ensures given != "" ==> m == given
    ensures given == "" ==> m == DetectFromCharge(chargeType)
  {
    var detected := Text.OrElse(given, "CARD");
    if given == "" && chargeType.Some? then
      (if chargeType.value == "twint" then "TWINT" else if chargeType.value == "card" then "CARD" else detected)
    else detected
  }

  /** What `handleSubmit` passes on is never overridden by the second detection. */
  lemma DetectionsAgree(chargeType: Option<string>)
    ensures ResolvePaymentMethod(DetectFromCharge(chargeType), chargeType) == DetectFromCharge(chargeType)
    ensures ResolvePaymentMethod("", chargeType) == DetectFromCharge(chargeType)
  {
  }

  // ----------------------------------------------------------------------------------
  // The payment form's outcome dispatch.

  /** A payment intent as returned by the SDK; `chargeType` is the first charge's method type. */
  datatype PaymentIntent = PaymentIntent(id: string, status: string, chargeType: Option<string>)

  /** What validating the payment element gave. */
  datatype ElementsCheck = Valid | Invalid(message: string) | CheckThrew(message: string)

  /** What confirming the payment gave. */
  datatype ConfirmResult =
    | StripeError(message: string)
    | Redirected                       // no payment intent in the result
    | Resolved(intent: PaymentIntent)
    | ConfirmThrew(message: string)

  /** The write-back of the payment status to the order. */
  datatype PaymentPatch = MarkPaid(stripePaymentId: string, paymentMethod: string) | MarkFailed

  datatype PaymentFormState = PaymentFormState(loading: bool, error: Option<string>)

  /** The status written back (if any), the form's new state, and whether `onSuccess` ran. */
  datatype SubmitEffects = SubmitEffects(patch: Option<PaymentPatch>, state: PaymentFormState, onSuccess: bool)

  const ValidationFailed := "Fehler bei der Validierung"
  const PaymentFailed := "Zahlung fehlgeschlagen"
  const PaymentIncomplete := "Die Zahlung konnte nicht abgeschlossen werden. Bitte versuchen Sie es erneut."
  const PaidButNotRecorded := "Zahlung erfolgreich, aber Fehler beim Aktualisieren der Bestellung. Bitte kontaktieren Sie uns."
  const PaymentError := "Fehler bei der Zahlung"

  /** `handlePaymentSuccess`: write PAID; only an ok response leads to `onSuccess`. */
  function HandlePaymentSuccess(intent: PaymentIntent, paymentMethod: string, paidOk: bool, state: PaymentFormState): (e: SubmitEffects)
    ensures e.patch == Some(MarkPaid(intent.id, ResolvePaymentMethod(paymentMethod, intent.chargeType)))
    ensures e.onSuccess <==> paidOk
    ensures e.onSuccess ==> e.state == state
    ensures !e.onSuccess ==> e.state == PaymentFormState(false, Some(PaidButNotRecorded))
  {
    var patch := MarkPaid(intent.id, ResolvePaymentMethod(paymentMethod, intent.chargeType));
    if paidOk then SubmitEffects(Some(patch), state, true)
    else SubmitEffects(Some(patch), PaymentFormState(false, Some(PaidButNotRecorded)), false)
  }

  predicate IsIncomplete(status: string) {
    status == "requires_payment_method" || status == "canceled"
  }

  /**
   * `CheckoutForm.handleSubmit`. `ready` is "the SDK, its elements and the client secret
   * are all present"; `paidOk` is whether the PAID write-back answered ok.
   */
  function HandleSubmit(ready: bool, state: PaymentFormState, check: ElementsCheck, confirm: ConfirmResult, paidOk: bool): (e: SubmitEffects)
    ensures !ready ==> e == SubmitEffects(None, state, false)
    ensures e.patch == Some(MarkFailed) <==>
              ready && check.Valid? && (confirm.StripeError? || (confirm.Resolved? && IsIncomplete(confirm.intent.status)))
    ensures (e.patch.Some? && e.patch.value.MarkPaid?) <==>
              ready && check.Valid? && confirm.Resolved? && confirm.intent.status == "succeeded"
    ensures e.patch.Some? && e.patch.value.MarkPaid? ==>
              e.patch.value == MarkPaid(confirm.intent.id, DetectFromCharge(confirm.intent.chargeType))
    ensures e.onSuccess <==> e.patch.Some? && e.patch.value.MarkPaid? && paidOk
    ensures ready ==> (e.state.loading <==> e.state.error.None?)
    ensures e.state.error.Some? && e.state.error != state.error ==> e.state.error.value != ""
    ensures ready && check.Invalid? ==> e.state == PaymentFormState(false, Some(Text.OrElse(check.message, ValidationFailed)))
    ensures ready && check.CheckThrew? ==> e.state == PaymentFormState(false, Some(Text.OrElse(check.message, PaymentError)))
    ensures ready && check.Valid? && confirm.ConfirmThrew? ==>
              e.state == PaymentFormState(false, Some(Text.OrElse(confirm.message, PaymentError)))
    ensures ready && check.Valid? && confirm.StripeError? ==>
              e.state == PaymentFormState(false, Some(Text.OrElse(confirm.message, PaymentFailed)))
    ensures e.patch == Some(MarkFailed) && confirm.Resolved? ==> e.state == PaymentFormState(false, Some(PaymentIncomplete))
    ensures e.patch.Some? && e.patch.value.MarkPaid? ==>
              e == HandlePaymentSuccess(confirm.intent, DetectFromCharge(confirm.intent.chargeType), paidOk, PaymentFormState(true, None))
  {
    if !ready then SubmitEffects(None, state, false)
    else
      var busy := PaymentFormState(true, None);
      match check
      case Invalid(m) => SubmitEffects(None, PaymentFormState(false, Some(Text.OrElse(m, ValidationFailed))), false)
      case CheckThrew(m) => SubmitEffects(None, PaymentFormState(false, Some(Text.OrElse(m, PaymentError))), false)
      case Valid =>
        match confirm
        case ConfirmThrew(m) => SubmitEffects(None, PaymentFormState(false, Some(Text.OrElse(m, PaymentError))), false)
        case StripeError(m) => SubmitEffects(Some(MarkFailed), PaymentFormState(false, Some(Text.OrElse(m, PaymentFailed))), false)
        case Redirected => SubmitEffects(None, busy, false)
        case Resolved(intent) =>
          if intent.status == "succeeded" then
            HandlePaymentSuccess(intent, DetectFromCharge(intent.chargeType), paidOk, busy)
          else if IsIncomplete(intent.status) then
            SubmitEffects(Some(MarkFailed), PaymentFormState(false, Some(PaymentIncomplete)), false)
          else
            SubmitEffects(None, busy, false)
  }

  /** A redirect, or any status other than the three handled ones, writes nothing and keeps the form busy. */
  lemma OtherOutcomesWriteNothing(state: PaymentFormState, confirm: ConfirmResult, paidOk: bool)
    requires confirm.Redirected? || (confirm.Resolved? && confirm.intent.status != "succeeded" && !IsIncomplete(confirm.intent.status))
    ensures HandleSubmit(true, state, Valid, confirm, paidOk) == SubmitEffects(None, PaymentFormState(true, None), false)
  {
  }

  // ----------------------------------------------------------------------------------
  // Restoring the cart of a failed order.

  /** A call the page makes on the cart store. */
  datatype CartCall =
    | ClearCart
    | AddToCart(item: NewCartItem)
    | UpdateQuantity(id: string, quantity: int)

  datatype NewCartItem = NewCartItem(id: string, name: string, price: int, image: string)

  /** The product of a stored order line; an absent image is "". */
  datatype ProductRef = ProductRef(id: string, name: string, image: string)

  datatype StoredItem = StoredItem(product: Option<ProductRef>, price: int, quantity: int)

  /** A stored shipping address; an absent field is "". */
  datatype StoredAddress = StoredAddress(
    firstName: string, lastName: string, address: string, city: string, zipCode: string, country: string)

  datatype StoredOrder = StoredOrder(items: Option<seq<StoredItem>>, shippingAddress: Option<StoredAddress>)

  /** The restore starts only for a non-empty retry id while the cart is empty. */
  function RetryOrder(retry: Option<string>, cartLength: nat): (orderId: Option<string>)
    ensures orderId.Some? <==> retry.Some? && retry.value != "" && cartLength == 0
    ensures orderId.Some? ==> orderId == retry
  {
    if retry.Some? && retry.value != "" && cartLength == 0 then retry else None
  }

  predicate HasProduct(item: StoredItem) {
    item.product.Some?
  }

  /** The cart item added for a stored line: product id, name and image, the line's price. */
  function AddCall(item: StoredItem): CartCall
    requires item.product.Some?
  {
    var p := item.product.value;
    AddToCart(NewCartItem(p.id, p.name, item.price, Text.OrElse(p.image, "")))
  }

  /** The `addToCart` calls of the `forEach`, in order. */
  function RestoreAdds(items: seq<StoredItem>): (calls: seq<CartCall>)
    ensures forall i :: 0 <= i < |calls| ==> calls[i].AddToCart?
    ensures |calls| <= |items|
    ensures (forall i :: 0 <= i < |items| ==> items[i].product.None?) ==> calls == []
  {
    if items == [] then []
    else
      var last := items[|items| - 1];
      RestoreAdds(items[..|items| - 1]) + (if last.product.Some? then [AddCall(last)] else [])
  }

  /**
   * The `updateQuantity` calls the `forEach` schedules, in the order they fire: one per
   * added item, for the product added at the same position, with the stored quantity.
   */
  function RestoreUpdates(items: seq<StoredItem>): (calls: seq<CartCall>)
    ensures |calls| == |RestoreAdds(items)|
    ensures forall i :: 0 <= i < |calls| ==>
              calls[i].UpdateQuantity? && calls[i].id == RestoreAdds(items)[i].item.id
  {
    if items == [] then []
    else
      var last := items[|items| - 1];
      RestoreUpdates(items[..|items| - 1])
      + (if last.product.Some? then [UpdateQuantity(last.product.value.id, last.quantity)] else [])
  }

  /** The added items are exactly the stored lines that carry a product, in their order. */
  lemma {:induction false} RestoreAddsAreProductLines(items: seq<StoredItem>)
    ensures |RestoreAdds(items)| == Seqs.Count(items, HasProduct)
    ensures forall i :: 0 <= i < |RestoreAdds(items)| ==>
              RestoreAdds(items)[i] == AddCall(Seqs.Filter(items, HasProduct)[i])
  {
    if items != [] {
      var init, last := items[..|items| - 1], items[|items| - 1];
      RestoreAddsAreProductLines(init);
      assert items == init + [last];
      Seqs.FilterAppend(init, [last], HasProduct);
      assert Seqs.Filter([last], HasProduct) == (if HasProduct(last) then [last] else []);
    }
  }

  /**
   * The delayed updates are exactly one per stored line that carries a product, in order,
   * each setting that product to the stored quantity.
   */
  lemma {:induction false} RestoreUpdatesAreProductQuantities(items: seq<StoredItem>)
    ensures |RestoreUpdates(items)| == |Seqs.Filter(items, HasProduct)|
    ensures forall i :: 0 <= i < |RestoreUpdates(items)| ==>
              var line := Seqs.Filter(items, HasProduct)[i];
              line.product.Some? && RestoreUpdates(items)[i] == UpdateQuantity(line.product.value.id, line.quantity)
  {
    if items != [] {
      var init, last := items[..|items| - 1], items[|items| - 1];
      RestoreUpdatesAreProductQuantities(init);
      assert items == init + [last];
      Seqs.FilterAppend(init, [last], HasProduct);
      if HasProduct(last) {
        assert Seqs.Filter([last], HasProduct) == [last];
        assert RestoreUpdates(items) == RestoreUpdates(init) + [UpdateQuantity(last.product.value.id, last.quantity)];
      } else {
        assert Seqs.Filter([last], HasProduct) == [];
        assert RestoreUpdates(items) == RestoreUpdates(init);
      }
    }
  }

  /** One more stored line adds at most one call to each of the two lists. */
  lemma RestoreStep(items: seq<StoredItem>, i: nat)
    requires i < |items|
    ensures RestoreAdds(items[..i + 1]) ==
            RestoreAdds(items[..i]) + (if items[i].product.Some? then [AddCall(items[i])] else [])
    ensures RestoreUpdates(items[..i + 1]) ==
            RestoreUpdates(items[..i])
            + (if items[i].product.Some? then [UpdateQuantity(items[i].product.value.id, items[i].quantity)] else [])
  {
    assert items[..i + 1][..i] == items[..i];
  }

  /**
   * The `forEach` over the stored lines: each line with a product is added to the cart
   * at once and its quantity update is scheduled.
   */
  method ScheduleRestore(items: seq<StoredItem>) returns (adds: seq<CartCall>, updates: seq<CartCall>)
    ensures adds == RestoreAdds(items) && updates == RestoreUpdates(items)
  {
    adds, updates := [], [];
    var i := 0;
    while i < |items|
      invariant 0 <= i <= |items|
      invariant adds == RestoreAdds(items[..i]) && updates == RestoreUpdates(items[..i])
    {
      var item := items[i];
      RestoreStep(items, i);
      if item.product.Some? {
        adds := adds + [AddCall(item)];
        updates := updates + [UpdateQuantity(item.product.value.id, item.quantity)];
      }
      i := i + 1;
    }
    assert items[..|items|] == items;
  }

  /** The stored lines of an order, none when the order has no item list. */
  function StoredItems(order: StoredOrder): (items: seq<StoredItem>)
    ensures order.items.None? ==> items == []
    ensures order.items.Some? ==> items == order.items.value
  {
    if order.items.Some? then order.items.value else []
  }

  /** The calls the restore makes on the cart store straight away. */
  function RestoreCalls(order: StoredOrder): (calls: seq<CartCall>)
    ensures StoredItems(order) == [] ==> calls == []
    ensures StoredItems(order) != [] ==> calls != [] && calls[0] == ClearCart
    ensures forall i :: 0 < i < |calls| ==> calls[i].AddToCart?
  {
    if StoredItems(order) != [] then [ClearCart] + RestoreAdds(StoredItems(order)) else []
  }

  /** The form refilled from a stored address; the contact fields come from the customer. */
  function RestoredForm(address: StoredAddress, user: Option<User>): (f: CheckoutForm)
    ensures f.country == Text.OrElse(address.country, "Schweiz") && f.country != ""
    ensures f.email == InitialForm(user).email && f.phone == InitialForm(user).phone
    ensures f.firstName == address.firstName && f.lastName == address.lastName
    ensures f.address == address.address && f.city == address.city && f.zipCode == address.zipCode
  {
    CheckoutForm(
      Text.OrElse(address.firstName, ""), Text.OrElse(address.lastName, ""),
      if user.Some? then Text.OrElse(user.value.email, "") else "",
      if user.Some? then Text.OrElse(user.value.phone, "") else "",
      Text.OrElse(address.address, ""), Text.OrElse(address.city, ""),
      Text.OrElse(address.zipCode, ""), Text.OrElse(address.country, "Schweiz"))
  }

  /** The page's state that the retry restore and a successful payment change. */
  class CheckoutPage {
    /** The calls made on the cart store so far, in order. */
    var cartCalls: seq<CartCall>
    /** The delayed cart-store calls still pending, in the order they will fire. */
    var timers: seq<CartCall>
    var form: CheckoutForm
    var restoringCart: bool
    /** The route the page navigated to, if any. */
    var navigation: Option<string>

    constructor(user: Option<User>)
      ensures cartCalls == [] && timers == [] && form == InitialForm(user)
      ensures !restoringCart && navigation.None?
    {
      cartCalls := [];
      timers := [];
      form := InitialForm(user);
      restoringCart := false;
      navigation := None;
    }

    /**
     * `restoreCartFromOrder`; `response` is the stored order, or None when the request
     * was not ok or failed. The cart is cleared once, before the product lines are
     * added in order; each quantity update is scheduled for later.
     */
    method RestoreCartFromOrder(response: Option<StoredOrder>, user: Option<User>)
      modifies this
      ensures !restoringCart && navigation == old(navigation)
      ensures response.None? ==> cartCalls == old(cartCalls) && timers == old(timers) && form == old(form)
      ensures response.Some? ==> cartCalls == old(cartCalls) + RestoreCalls(response.value)
      ensures response.Some? ==> timers == old(timers) + RestoreUpdates(StoredItems(response.value))
      ensures response.Some? && response.value.shippingAddress.Some? ==>
                form == RestoredForm(response.value.shippingAddress.value, user)
      ensures response.Some? && response.value.shippingAddress.None? ==> form == old(form)
    {
      restoringCart := true;
      if response.Some? {
        var order := response.value;
        var items := StoredItems(order);
        if items != [] {
          var adds, updates := ScheduleRestore(items);
          cartCalls := cartCalls + [ClearCart] + adds;
          timers := timers + updates;
        }
        if order.shippingAddress.Some? {
          form := RestoredForm(order.shippingAddress.value, user);
        }
      }
      restoringCart := false;
    }

    /** The pending delayed calls fire, in order. */
    method FireTimers()
      modifies this
      ensures cartCalls == old(cartCalls) + old(timers) && timers == []
      ensures form == old(form) && restoringCart == old(restoringCart) && navigation == old(navigation)
    {
      cartCalls := cartCalls + timers;
      timers := [];
    }

    /** The page's `handlePaymentSuccess`: clear the cart and go to the success page. */
    method PaymentSucceeded(orderId: string)
      modifies this
      ensures cartCalls == old(cartCalls) + [ClearCart]
      ensures navigation == Some("/order-success?orderId=" + orderId)
      ensures timers == old(timers) && form == old(form) && restoringCart == old(restoringCart)
    {
      cartCalls := cartCalls + [ClearCart];
      navigation := Some("/order-success?orderId=" + orderId);
    }
  }
}
