/**
 * The customer's order list: its own copies of the status tables, the background
 * refresh while a payment is pending, and the loading flag of `fetchOrders`.
 */
module OrdersPage {
  import opened Wrappers
  import Text
  import OrderManagement

  /** This page's `getStatusLabel`: the same table as the back office's. */
  function StatusLabel(status: string): (shown: string)
    ensures shown == OrderManagement.StatusLabel(status)
  {
    if status == "PENDING" then "Ausstehend"
    else if status == "PROCESSING" then "In Bearbeitung"
    else if status == "SHIPPED" then "Versendet"
    else if status == "DELIVERED" then "Geliefert"
    else if status == "CANCELLED" then "Storniert"
    else status
  }

  /** This page's `getStatusColor`: the same colours as the back office's, slate otherwise. */
  function StatusColor(status: string): (color: string)
    ensures color == OrderManagement.StatusColor(status)
  {
    if status == "PENDING" then "bg-yellow-100 text-yellow-700"
    else if status == "PROCESSING" then "bg-blue-100 text-blue-700"
    else if status == "SHIPPED" then "bg-purple-100 text-purple-700"
    else if status == "DELIVERED" then "bg-green-100 text-green-700"
    else if status == "CANCELLED" then "bg-red-100 text-red-700"
    else "bg-slate-100 text-slate-700"
  }

  datatype CustomerOrder = CustomerOrder(id: string, status: string, paymentStatus: string)

  /** `orders.some(order => order.paymentStatus === 'PENDING')`: a background refresh is due. */
  function HasPendingPayments(orders: seq<CustomerOrder>): (due: bool)
    ensures due <==> exists i :: 0 <= i < |orders| && orders[i].paymentStatus == "PENDING"
  {
    if orders == [] then false
    else orders[0].paymentStatus == "PENDING" || HasPendingPayments(orders[1..])
  }

  /** The list's state. */
  datatype ListState = ListState(loading: bool, orders: seq<CustomerOrder>, error: Option<string>)

  /** What the list request returned; `orders` is None when the body has no list. */
  datatype ListResponse = Listed(orders: Option<seq<CustomerOrder>>) | ListNotOk | ListThrew(message: string)

  /** The error for a list request answered with a non-ok status. */
  const ListFailed := "Failed to fetch orders"
  /** The error for a thrown list request without a message of its own. */
  const LoadFailed := "Fehler beim Laden der Bestellungen"

  /**
   * `fetchOrders(showLoading)`. With `showLoading` the flag is raised and always lowered
   * at the end; without it (the background refresh) the flag is never touched.
   */
  function FetchOrders(showLoading: bool, state: ListState, response: ListResponse): (s: ListState)
    ensures showLoading ==> !s.loading
    ensures !showLoading ==> s.loading == state.loading
    ensures response.Listed? ==> s.orders == response.orders.GetOr([]) && s.error == state.error
    ensures !response.Listed? ==> s.orders == state.orders && s.error.Some? && s.error.value != ""
    ensures response.ListNotOk? ==> s.error == Some(ListFailed)
    ensures response.ListThrew? ==> s.error == Some(Text.OrElse(response.message, LoadFailed))
  {
    var loading := if showLoading then false else state.loading;
    match response
    case Listed(orders) => ListState(loading, orders.GetOr([]), state.error)
    case ListNotOk => ListState(loading, state.orders, Some(ListFailed))
    case ListThrew(m) => ListState(loading, state.orders, Some(Text.OrElse(m, LoadFailed)))
  }

  /**
   * One tick of the three-second refresh, over the list the tick sees: a quiet fetch when
   * a payment is pending, nothing otherwise.
   */
  function RefreshTick(seen: seq<CustomerOrder>, state: ListState, response: ListResponse): (s: ListState)
    ensures !HasPendingPayments(seen) ==> s == state
    ensures HasPendingPayments(seen) ==> s == FetchOrders(false, state, response)
    ensures HasPendingPayments(seen) && response.Listed? ==> s.orders == response.orders.GetOr([])
    ensures s.loading == state.loading
  {
    if HasPendingPayments(seen) then FetchOrders(false, state, response) else state
  }
}
