/**
 * The order-success page, reached after the payment form or the payment provider's
 * redirect. It reconciles the order's payment status with the backend: one immediate
 * check, then a poll every two seconds that gives up after 15 attempts. The poll's
 * ticks are an ordered sequence of fetch results.
 */
module OrderSuccess {
  import opened Wrappers
  import Text

  /** The order as the backend returns it (only what the page decides on). */
  datatype OrderData = OrderData(id: string, paymentStatus: string)

  /** One request for the order: ok with the order, answered not ok, or failed to complete. */
  datatype Fetch = Ok(order: OrderData) | NotOk | Threw

  /** Where the poll stands: stopped in one of three ways, or still polling after `attempts` ticks. */
  datatype Outcome =
    | ShowPaid(order: OrderData)
    | RedirectFailed
    | ShowPending(order: OrderData)
    | Polling(attempts: nat)

  const MaxAttempts: nat := 15

  predicate IsTerminal(status: string) {
    status == "PAID" || status == "FAILED"
  }

  /**
   * One interval tick, given the attempt count already incremented. PAID and FAILED are
   * tested before the ceiling, so a terminal status is never reported as pending; a
   * tick that is not ok never stops the poll.
   */
  function Tick(attempts: nat, fetch: Fetch): (out: Outcome)
    ensures !fetch.Ok? ==> out == Polling(attempts)
    ensures fetch.Ok? && fetch.order.paymentStatus == "PAID" ==> out == ShowPaid(fetch.order)
    ensures fetch.Ok? && fetch.order.paymentStatus == "FAILED" ==> out == RedirectFailed
    ensures out.ShowPending? <==>
              fetch.Ok? && !IsTerminal(fetch.order.paymentStatus) && attempts >= MaxAttempts
    ensures out.ShowPending? ==> out.order == fetch.order
    ensures out.ShowPaid? ==> fetch == Ok(out.order) && out.order.paymentStatus == "PAID"
    ensures out.RedirectFailed? ==> fetch.Ok? && fetch.order.paymentStatus == "FAILED"
    ensures out.Polling? ==> out.attempts == attempts
  {
    match fetch
    case Ok(order) =>
      if order.paymentStatus == "PAID" then ShowPaid(order)
      else if order.paymentStatus == "FAILED" then RedirectFailed
      else if attempts >= MaxAttempts then ShowPending(order)
      else Polling(attempts)
    case NotOk => Polling(attempts)
    case Threw => Polling(attempts)
  }

  /** The poll over the remaining ticks, `attempts` ticks having already run. */
  function PollFrom(attempts: nat, ticks: seq<Fetch>): (out: Outcome)
    ensures out.Polling? ==> out.attempts == attempts + |ticks|
    ensures out.ShowPaid? ==> out.order.paymentStatus == "PAID"
    decreases |ticks|
  {
    if ticks == [] then Polling(attempts)
    else
      match Tick(attempts + 1, ticks[0])
      case Polling(_) => PollFrom(attempts + 1, ticks[1..])
      case stopped => stopped
  }

  /** Ticks whose request was not ok or failed are counted but never stop the poll. */
  lemma {:induction false} FailedTicksNeverStop(attempts: nat, ticks: seq<Fetch>)
    requires forall i :: 0 <= i < |ticks| ==> !ticks[i].Ok?
    ensures PollFrom(attempts, ticks) == Polling(attempts + |ticks|)
    decreases |ticks|
  {
    if ticks != [] {
      FailedTicksNeverStop(attempts + 1, ticks[1..]);
    }
  }

  /**
   * The poll reports "pending" only from the 15th tick on, and only for an order whose
   * status is neither PAID nor FAILED, taken from one of the ticks.
   */
  lemma {:induction false} PendingOnlyAtCeiling(attempts: nat, ticks: seq<Fetch>)
    requires PollFrom(attempts, ticks).ShowPending?
    ensures attempts + |ticks| >= MaxAttempts
    ensures !IsTerminal(PollFrom(attempts, ticks).order.paymentStatus)
    ensures Ok(PollFrom(attempts, ticks).order) in ticks
    decreases |ticks|
  {
    if Tick(attempts + 1, ticks[0]).Polling? {
      PendingOnlyAtCeiling(attempts + 1, ticks[1..]);
    }
  }

  /**
   * When every tick answers ok with a non-terminal status, the poll stops at the tick
   * that brings the count to 15 (or at the first tick, once the count is already past
   * it) and shows that tick's order as pending.
   */
  lemma {:induction false} PendingTicksStopAtCeiling(attempts: nat, ticks: seq<Fetch>)
    requires forall i :: 0 <= i < |ticks| ==> ticks[i].Ok? && !IsTerminal(ticks[i].order.paymentStatus)
    requires (if attempts + 1 >= MaxAttempts then 0 else MaxAttempts - attempts - 1) < |ticks|
    ensures PollFrom(attempts, ticks)
            == ShowPending(ticks[if attempts + 1 >= MaxAttempts then 0 else MaxAttempts - attempts - 1].order)
    decreases |ticks|
  {
    if attempts + 1 < MaxAttempts {
      PendingTicksStopAtCeiling(attempts + 1, ticks[1..]);
    }
  }

  /** Two pending answers and then PAID: the order is shown as paid on the third tick. */
  lemma PaidOnThirdTick(pending: OrderData, paid: OrderData)
    requires pending.paymentStatus == "PENDING" && paid.paymentStatus == "PAID"
    ensures PollFrom(0, [Ok(pending), Ok(pending), Ok(paid), NotOk]) == ShowPaid(paid)
  {
    var ticks := [Ok(pending), Ok(pending), Ok(paid), NotOk];
    assert ticks[1..] == [Ok(pending), Ok(paid), NotOk];
    assert ticks[1..][1..] == [Ok(paid), NotOk];
    assert PollFrom(2, [Ok(paid), NotOk]) == ShowPaid(paid);
  }

  /** What `fetchOrder` does with its answer. */
  datatype FallbackResult = FallbackShow(order: OrderData) | FallbackRedirect | FallbackError(message: string)

  const LoadError := "Fehler beim Laden der Bestellung"

  /**
   * `fetchOrder`, given the `checkingPayment` value it sees. When payment is not being
   * checked and the order is not PAID, it redirects to the failure page and does not
   * show the order.
   */
  function FetchOrder(fetch: Fetch, checkingPayment: bool): (r: FallbackResult)
    ensures !fetch.Ok? ==> r == FallbackError(LoadError)
    ensures fetch.Ok? && !checkingPayment && fetch.order.paymentStatus != "PAID" ==> r == FallbackRedirect
    ensures r.FallbackShow? <==> fetch.Ok? && (checkingPayment || fetch.order.paymentStatus == "PAID")
    ensures r.FallbackShow? ==> r.order == fetch.order
  {
    match fetch
    case Ok(order) =>
      if !checkingPayment && order.paymentStatus != "PAID" then FallbackRedirect else FallbackShow(order)
    case NotOk => FallbackError(LoadError)
    case Threw => FallbackError(LoadError)
  }

  /** The immediate check, its fallback (when it threw) and the poll's outcome. */
  datatype Reconciliation = Reconciliation(fallback: Option<FallbackResult>, outcome: Outcome)

  /**
   * `checkPaymentStatus` as a whole. A PAID or FAILED answer to the immediate check
   * ends everything before any tick. A pending or not-ok answer leaves the poll to
   * decide. When the immediate check throws, `fetchOrder` runs, seeing the
   * `checkingPayment` of the render that started the check (false), and the poll
   * still runs on.
   */
  function Reconcile(immediate: Fetch, fallback: Fetch, ticks: seq<Fetch>): (r: Reconciliation)
    ensures immediate.Ok? && immediate.order.paymentStatus == "PAID" ==> r == Reconciliation(None, ShowPaid(immediate.order))
    ensures immediate.Ok? && immediate.order.paymentStatus == "FAILED" ==> r == Reconciliation(None, RedirectFailed)
    ensures !(immediate.Ok? && IsTerminal(immediate.order.paymentStatus)) ==> r.outcome == PollFrom(0, ticks)
    ensures r.fallback.Some? <==> immediate.Threw?
    ensures r.fallback.Some? ==> r.fallback.value == FetchOrder(fallback, false)
    ensures r.outcome.ShowPaid? ==> r.outcome.order.paymentStatus == "PAID"
  {
    match immediate
    case Ok(order) =>
      if order.paymentStatus == "PAID" then Reconciliation(None, ShowPaid(order))
      else if order.paymentStatus == "FAILED" then Reconciliation(None, RedirectFailed)
      else Reconciliation(None, PollFrom(0, ticks))
    case NotOk => Reconciliation(None, PollFrom(0, ticks))
    case Threw => Reconciliation(Some(FetchOrder(fallback, false)), PollFrom(0, ticks))
  }

  /**
   * The page's reconciliation with a mutable attempt counter: the immediate check, then
   * the interval ticks in order until one of them clears the interval.
   */
  method CheckPaymentStatus(immediate: Fetch, fallback: Fetch, ticks: seq<Fetch>) returns (r: Reconciliation)
    ensures r == Reconcile(immediate, fallback, ticks)
    ensures r.outcome.ShowPending? ==> !IsTerminal(r.outcome.order.paymentStatus) && |ticks| >= MaxAttempts
    ensures r.outcome.Polling? ==> r.outcome.attempts == |ticks|
  {
    var fallbackResult: Option<FallbackResult> := None;
    match immediate {
      case Ok(order) =>
        if order.paymentStatus == "PAID" {
          return Reconciliation(None, ShowPaid(order));
        } else if order.paymentStatus == "FAILED" {
          return Reconciliation(None, RedirectFailed);
        }
      case NotOk =>
      case Threw =>
        var checkingPayment := false;
        fallbackResult := Some(FetchOrder(fallback, checkingPayment));
    }
    var attempts: nat := 0;
    var outcome := Polling(0);
    var i := 0;
    while i < |ticks| && outcome.Polling?
      invariant 0 <= i <= |ticks|
      invariant attempts == i
      invariant outcome.Polling? ==> outcome.attempts == attempts
      invariant PollFrom(0, ticks) == (if outcome.Polling? then PollFrom(attempts, ticks[i..]) else outcome)
    {
      attempts := attempts + 1;
      match ticks[i] {
        case Ok(order) =>
          if order.paymentStatus == "PAID" {
            outcome := ShowPaid(order);
          } else if order.paymentStatus == "FAILED" {
            outcome := RedirectFailed;
          } else if attempts >= MaxAttempts {
            outcome := ShowPending(order);
          } else {
            outcome := Polling(attempts);
          }
        case NotOk =>
          outcome := Polling(attempts);
        case Threw =>
          outcome := Polling(attempts);
      }
      assert ticks[i..][1..] == ticks[i + 1..];
      i := i + 1;
    }
    r := Reconciliation(fallbackResult, outcome);
    if r.outcome.ShowPending? {
      PendingOnlyAtCeiling(0, ticks);
    }
  }

  /** `getPaymentMethodLabel`: no method reads "Nicht angegeben"; the five codes get their names. */
  function PaymentMethodLabel(code: Option<string>): (shown: string)
    ensures code.None? || code.value == "" ==> shown == "Nicht angegeben"
    ensures code == Some("CARD") ==> shown == "Kreditkarte"
    ensures code == Some("APPLEPAY") ==> shown == "Apple Pay"
    ensures code == Some("TWINT") ==> shown == "TWINT"
    ensures code == Some("PAYPAL") ==> shown == "PayPal"
    ensures code == Some("CASH") ==> shown == "Bar"
  {
    match code
    case None => "Nicht angegeben"
    case Some(m) =>
      if m == "" then "Nicht angegeben"
      else if m == "TWINT" then "TWINT"
      else if m == "APPLEPAY" then "Apple Pay"
      else if m == "CARD" then "Kreditkarte"
      else if m == "PAYPAL" then "PayPal"
      else if m == "CASH" then "Bar"
      else m
  }

  /** A present method is shown unchanged exactly when it is not one of the four renamed codes. */
  lemma PaymentMethodLabelUnchanged(m: string)
    requires m != ""
    ensures PaymentMethodLabel(Some(m)) == m <==> m != "APPLEPAY" && m != "CARD" && m != "PAYPAL" && m != "CASH"
  {
  }

  /** This page's status colours: three statuses are coloured, every other status is slate. */
  function StatusColor(status: string): (color: string)
    ensures color == "bg-slate-100 text-slate-700" <==>
              status != "PROCESSING" && status != "SHIPPED" && status != "DELIVERED"
  {
    if status == "PROCESSING" then "bg-blue-100 text-blue-700"
    else if status == "SHIPPED" then "bg-purple-100 text-purple-700"
    else if status == "DELIVERED" then "bg-green-100 text-green-700"
    else "bg-slate-100 text-slate-700"
  }
}
