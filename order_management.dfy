/**
 * The back-office order management: the status and payment-status tables, the URL of
 * the order list, and the status-update dialog (its prefill, its guard and the request
 * it sends).
 */
module OrderManagement {
  import opened Wrappers
  import Text

  /** `getStatusLabel`: the five order statuses in German; any other status is shown as is. */
  function StatusLabel(status: string): (shown: string)
    ensures status == "PENDING" ==> shown == "Ausstehend"
    ensures status == "PROCESSING" ==> shown == "In Bearbeitung"
    ensures status == "SHIPPED" ==> shown == "Versendet"
    ensures status == "DELIVERED" ==> shown == "Geliefert"
    ensures status == "CANCELLED" ==> shown == "Storniert"
    ensures shown == status <==> !IsOrderStatus(status)
  {
    var known := map[
      "PENDING" := "Ausstehend", "PROCESSING" := "In Bearbeitung", "SHIPPED" := "Versendet",
      "DELIVERED" := "Geliefert", "CANCELLED" := "Storniert"];
    if status in known then Text.OrElse(known[status], status) else status
  }

  predicate IsOrderStatus(status: string) {
    status == "PENDING" || status == "PROCESSING" || status == "SHIPPED" || status == "DELIVERED" || status == "CANCELLED"
  }

  predicate IsPaymentStatus(status: string) {
    status == "PENDING" || status == "PAID" || status == "FAILED" || status == "REFUNDED"
  }

  /** `getPaymentStatusLabel`: the four payment statuses in German; any other value as is. */
  function PaymentStatusLabel(status: string): (shown: string)
    ensures status == "PENDING" ==> shown == "Ausstehend"
    ensures status == "PAID" ==> shown == "Bezahlt"
    ensures status == "FAILED" ==> shown == "Fehlgeschlagen"
    ensures status == "REFUNDED" ==> shown == "Erstattet"
    ensures shown == status <==> !IsPaymentStatus(status)
  {
    var known := map["PENDING" := "Ausstehend", "PAID" := "Bezahlt", "FAILED" := "Fehlgeschlagen", "REFUNDED" := "Erstattet"];
    if status in known then Text.OrElse(known[status], status) else status
  }

  const Slate := "bg-slate-100 text-slate-700"

  /** `getStatusColor`: one colour per order status, slate for every other status. */
  function StatusColor(status: string): (color: string)
    ensures color == Slate <==> !IsOrderStatus(status)
    ensures status == "PENDING" ==> color == "bg-yellow-100 text-yellow-700"
    ensures status == "CANCELLED" ==> color == "bg-red-100 text-red-700"
  {
    match status
    case "PENDING" => "bg-yellow-100 text-yellow-700"
    case "PROCESSING" => "bg-blue-100 text-blue-700"
    case "SHIPPED" => "bg-purple-100 text-purple-700"
    case "DELIVERED" => "bg-green-100 text-green-700"
    case "CANCELLED" => "bg-red-100 text-red-700"
    case _ => Slate
  }

  /** `getPaymentStatusColor`: one colour per payment status, slate for every other value. */
  function PaymentStatusColor(status: string): (color: string)
    ensures color == Slate <==> !IsPaymentStatus(status)
    ensures status == "PAID" ==> color == "bg-green-100 text-green-700"
    ensures status == "REFUNDED" ==> color == "bg-orange-100 text-orange-700"
  {
    match status
    case "PAID" => "bg-green-100 text-green-700"
    case "PENDING" => "bg-yellow-100 text-yellow-700"
    case "FAILED" => "bg-red-100 text-red-700"
    case "REFUNDED" => "bg-orange-100 text-orange-700"
    case _ => Slate
  }

  /**
   * The URL of the order list: the list endpoint, followed by a status query exactly
   * when a status filter is chosen.
   */
  function OrdersUrl(apiUrl: string, filterStatus: string): (url: string)
    ensures Text.StartsWith(url, apiUrl + "/api/orders")
    ensures |url| > |apiUrl + "/api/orders"| <==> filterStatus != ""
    ensures filterStatus != "" ==> url[|apiUrl + "/api/orders"|..] == "?status=" + filterStatus
  {
    if filterStatus != "" then apiUrl + "/api/orders?status=" + filterStatus else apiUrl + "/api/orders"
  }

  /** An order as the dialog sees it; a missing shipping address is None, a missing tracking number "". */
  datatype AdminOrder = AdminOrder(id: string, status: string, shippingAddress: Option<Address>)

  datatype Address = Address(trackingNumber: string)

  /** The dialog's editable fields. */
  datatype StatusEdit = StatusEdit(newStatus: string, trackingNumber: string)

  /** `handleViewOrder`: the dialog opens on the order's current status and stored tracking number. */
  function Prefill(order: AdminOrder): (edit: StatusEdit)
    ensures edit.newStatus == order.status
    ensures order.shippingAddress.None? ==> edit.trackingNumber == ""
    ensures order.shippingAddress.Some? ==> edit.trackingNumber == order.shippingAddress.value.trackingNumber
  {
    var tracking := if order.shippingAddress.Some? then order.shippingAddress.value.trackingNumber else "";
    StatusEdit(order.status, Text.OrElse(tracking, ""))
  }

  /** The body of the status update; an absent tracking number is left out of the JSON. */
  datatype StatusUpdate = StatusUpdate(orderId: string, status: string, trackingNumber: Option<string>)

  /**
   * The request `handleUpdateStatus` sends: none without a selected order or with an
   * empty new status; otherwise the new status, and the tracking number whenever it is
   * non-empty, whatever the status (the input is only shown for SHIPPED).
   */
  function UpdateRequest(selected: Option<AdminOrder>, edit: StatusEdit): (r: Option<StatusUpdate>)
    ensures r.None? <==> selected.None? || edit.newStatus == ""
    ensures r.Some? ==> r.value.orderId == selected.value.id && r.value.status == edit.newStatus
    ensures r.Some? ==> (r.value.trackingNumber.Some? <==> edit.trackingNumber != "")
    ensures r.Some? && r.value.trackingNumber.Some? ==> r.value.trackingNumber.value == edit.trackingNumber
  {
    if selected.None? || edit.newStatus == "" then None
    else Some(StatusUpdate(selected.value.id, edit.newStatus,
                           if edit.trackingNumber != "" then Some(edit.trackingNumber) else None))
  }

  /** What the dialog shows after a status update; `error` is the message the handler sets, if it sets one (it never clears an earlier one). */
  datatype UpdateOutcome = UpdateOutcome(request: Option<StatusUpdate>, refetched: bool, modalOpen: bool,
                                         selected: Option<AdminOrder>, error: Option<string>, updating: bool)

  /** How the status update's request ended: answered (ok or not), or thrown with a message. */
  datatype UpdateAnswer = Answered(ok: bool) | Threw(message: string)

  /** The message of the error the handler throws itself for a non-ok answer. */
  const UpdateFailed := "Failed to update status"

  /**
   * `handleUpdateStatus` as a whole: on an ok answer the list is fetched again, the dialog
   * closes and the selection is dropped. A non-ok answer throws `UpdateFailed`. A thrown
   * request shows its own message, or the German fallback when that is empty. In both
   * failure cases the dialog stays open with the selection. The updating flag always ends
   * cleared.
   */
  function HandleUpdateStatus(selected: Option<AdminOrder>, edit: StatusEdit, answer: UpdateAnswer): (o: UpdateOutcome)
    ensures o.request == UpdateRequest(selected, edit) && !o.updating
    ensures o.request.None? ==> o == UpdateOutcome(None, false, true, selected, None, false)
    ensures o.request.Some? ==> (o.refetched <==> answer == Answered(true)) && (o.modalOpen <==> answer != Answered(true))
    ensures o.request.Some? && answer == Answered(true) ==> o.selected.None? && o.error.None?
    ensures o.request.Some? && answer != Answered(true) ==> o.selected == selected && o.error.Some? && o.error.value != ""
    ensures o.request.Some? && answer == Answered(false) ==> o.error == Some(UpdateFailed)
    ensures o.request.Some? && answer.Threw? ==> o.error == Some(Text.OrElse(answer.message, "Fehler beim Aktualisieren"))
  {
    var request := UpdateRequest(selected, edit);
    if request.None? then UpdateOutcome(None, false, true, selected, None, false)
    else
      match answer
      case Answered(true) => UpdateOutcome(request, true, false, None, None, false)
      case Answered(false) => UpdateOutcome(request, false, true, selected, Some(UpdateFailed), false)
      case Threw(m) => UpdateOutcome(request, false, true, selected, Some(Text.OrElse(m, "Fehler beim Aktualisieren")), false)
  }

  /** The update button is disabled while an update runs or when the status is unchanged. */
  function UpdateDisabled(updating: bool, edit: StatusEdit, selected: AdminOrder): (disabled: bool)
    ensures updating ==> disabled
    ensures !updating ==> (disabled <==> edit.newStatus == selected.status)
  {
    updating || edit.newStatus == selected.status
  }

  /** A freshly opened dialog cannot submit until a different status is chosen. */
  lemma OpenedDialogStartsDisabled(order: AdminOrder, updating: bool)
    ensures UpdateDisabled(updating, Prefill(order), order)
  {
  }

  /** The tracking-number input is shown exactly for SHIPPED. */
  function ShowsTrackingInput(edit: StatusEdit): (shown: bool)
    ensures shown <==> edit.newStatus == "SHIPPED"
  {
    edit.newStatus == "SHIPPED"
  }

  /**
   * A tracking number typed while SHIPPED was chosen is still sent after switching to
   * another status, although its input is then hidden.
   */
  lemma TrackingSentWhileHidden(selected: AdminOrder, edit: StatusEdit)
    requires edit.newStatus != "" && edit.newStatus != "SHIPPED" && edit.trackingNumber != ""
    ensures !ShowsTrackingInput(edit)
    ensures UpdateRequest(Some(selected), edit) == Some(StatusUpdate(selected.id, edit.newStatus, Some(edit.trackingNumber)))
  {
  }
}
