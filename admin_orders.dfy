/**
 * The back-office order list: the date and search filter, the summary below the list,
 * the status badges and the URL of the list.
 */
module AdminOrders {
  import Text
  import Seqs
  import OrderManagement

  /** An order of the list; the customer's full name may be missing. Times are timestamps. */
  datatype ListedOrder = ListedOrder(
    orderNumber: string, email: string, fullName: string, createdAt: int, total: int, status: string)

  datatype DateFilter = Today | Week | Month | All

  /** The starts of today, of this week (Sunday) and of this month, as timestamps. */
  datatype PeriodStarts = PeriodStarts(today: int, week: int, month: int)

  /** An order passes the date filter unless it was created before the chosen period's start. */
  function OnDate(order: ListedOrder, filter: DateFilter, starts: PeriodStarts): (on: bool)
    ensures filter == All ==> on
    ensures filter == Today ==> (on <==> order.createdAt >= starts.today)
    ensures filter == Week ==> (on <==> order.createdAt >= starts.week)
    ensures filter == Month ==> (on <==> order.createdAt >= starts.month)
  {
    match filter
    case Today => !(order.createdAt < starts.today)
    case Week => !(order.createdAt < starts.week)
    case Month => !(order.createdAt < starts.month)
    case All => true
  }

  /**
   * An empty query matches every order; otherwise the order number, the e-mail or a
   * present full name must contain the lower-cased query, case-insensitively.
   */
  function MatchesQuery(order: ListedOrder, query: string): (matched: bool)
    ensures query == "" ==> matched
    ensures query != "" && order.fullName == "" ==>
              (matched <==> Text.Contains(Text.Lower(order.orderNumber), Text.Lower(query))
                            || Text.Contains(Text.Lower(order.email), Text.Lower(query)))
  {
    query == ""
    || Text.Contains(Text.Lower(order.orderNumber), Text.Lower(query))
    || Text.Contains(Text.Lower(order.email), Text.Lower(query))
    || (order.fullName != "" && Text.Contains(Text.Lower(order.fullName), Text.Lower(query)))
  }

  predicate Keep(order: ListedOrder, filter: DateFilter, starts: PeriodStarts, query: string) {
    OnDate(order, filter, starts) && MatchesQuery(order, query)
  }

  /** `filteredOrders`: exactly the orders that pass both filters, in their order. */
  function FilteredOrders(orders: seq<ListedOrder>, filter: DateFilter, starts: PeriodStarts, query: string)
    : (r: seq<ListedOrder>)
    ensures |r| <= |orders|
    ensures forall i :: 0 <= i < |r| ==> r[i] in orders && Keep(r[i], filter, starts, query)
    ensures forall i :: 0 <= i < |orders| && Keep(orders[i], filter, starts, query) ==> orders[i] in r
    ensures forall x :: multiset(r)[x] == if Keep(x, filter, starts, query) then multiset(orders)[x] else 0
  {
    Seqs.FilterMultiset(orders, o => Keep(o, filter, starts, query));
    Seqs.Filter(orders, o => Keep(o, filter, starts, query))
  }

  /** The filtered list is an order-preserving subsequence of the fetched one. */
  lemma FilteredOrdersIsSubseq(orders: seq<ListedOrder>, filter: DateFilter, starts: PeriodStarts, query: string)
    ensures Seqs.Subseq(FilteredOrders(orders, filter, starts, query), orders)
  {
    Seqs.FilterIsSubseq(orders, o => Keep(o, filter, starts, query));
  }

  /** "All" with an empty query shows every order. */
  lemma AllWithoutQueryKeepsEverything(orders: seq<ListedOrder>, starts: PeriodStarts)
    ensures FilteredOrders(orders, All, starts, "") == orders
  {
    Seqs.FilterAll(orders, o => Keep(o, All, starts, ""));
  }

  /** With an empty query the result is just the date-filtered list. */
  lemma EmptyQueryFiltersByDateOnly(orders: seq<ListedOrder>, filter: DateFilter, starts: PeriodStarts)
    ensures FilteredOrders(orders, filter, starts, "") == Seqs.Filter(orders, o => OnDate(o, filter, starts))
  {
    Seqs.FilterSameOn(orders, o => Keep(o, filter, starts, ""), o => OnDate(o, filter, starts));
  }

  /** The summary below the list: how many orders it shows and their summed totals. */
  datatype Summary = Summary(count: nat, value: int)

  function ListSummary(filtered: seq<ListedOrder>): (s: Summary)
    ensures s.count == |filtered|
    ensures filtered == [] ==> s == Summary(0, 0)
    ensures |filtered| == 1 ==> s == Summary(1, filtered[0].total)
  {
    var total := (o: ListedOrder) => o.total;
    assert |filtered| == 1 ==>
      filtered[1..] == [] && Seqs.Sum(filtered, total) == total(filtered[0]) + Seqs.Sum(filtered[1..], total);
    Summary(|filtered|, Seqs.Sum(filtered, total))
  }

  /**
   * Both figures of the summary add up over consecutive stretches of the list. With the
   * empty and one-order cases of `ListSummary` this fixes the value as the sum of the totals.
   */
  lemma SummaryAppend(a: seq<ListedOrder>, b: seq<ListedOrder>)
    ensures ListSummary(a + b).count == ListSummary(a).count + ListSummary(b).count
    ensures ListSummary(a + b).value == ListSummary(a).value + ListSummary(b).value
  {
    Seqs.SumAppend(a, b, (o: ListedOrder) => o.total);
  }

  /** A badge: its label and colour. */
  datatype Badge = Badge(caption: string, color: string)

  const Gray := "bg-gray-100 text-gray-700"

  /** `getStatusBadge`: a table of the five statuses; any other status in gray, as is. */
  function StatusBadge(status: string): (b: Badge)
    ensures !OrderManagement.IsOrderStatus(status) ==> b == Badge(status, Gray)
    ensures OrderManagement.IsOrderStatus(status) ==> b.color != Gray && b.caption != status
  {
    match status
    case "PENDING" => Badge("Ausstehend", "bg-yellow-100 text-yellow-700")
    case "PROCESSING" => Badge("In Bearbeitung", "bg-blue-100 text-blue-700")
    case "SHIPPED" => Badge("Versandt", "bg-purple-100 text-purple-700")
    case "DELIVERED" => Badge("Geliefert", "bg-green-100 text-green-700")
    case "CANCELLED" => Badge("Storniert", "bg-red-100 text-red-700")
    case _ => Badge(status, Gray)
  }

  /**
   * The badge agrees with the order dialog's label and colour for every status but one:
   * SHIPPED reads "Versandt" here and "Versendet" there. Unknown statuses are gray here
   * and slate there.
   */
  lemma StatusBadgeAgreesExceptShipped(status: string)
    ensures OrderManagement.IsOrderStatus(status) ==> StatusBadge(status).color == OrderManagement.StatusColor(status)
    ensures status != "SHIPPED" ==> StatusBadge(status).caption == OrderManagement.StatusLabel(status)
    ensures StatusBadge("SHIPPED").caption != OrderManagement.StatusLabel("SHIPPED")
  {
  }

  /** `getPaymentStatusBadge`: the four payment statuses; REFUNDED and unknown values in gray. */
  function PaymentStatusBadge(status: string): (b: Badge)
    ensures !OrderManagement.IsPaymentStatus(status) ==> b == Badge(status, Gray)
    ensures OrderManagement.IsPaymentStatus(status) ==> b.caption == OrderManagement.PaymentStatusLabel(status)
    ensures b.color == Gray <==> status == "REFUNDED" || !OrderManagement.IsPaymentStatus(status)
  {
    match status
    case "PENDING" => Badge("Ausstehend", "bg-yellow-100 text-yellow-700")
    case "PAID" => Badge("Bezahlt", "bg-green-100 text-green-700")
    case "FAILED" => Badge("Fehlgeschlagen", "bg-red-100 text-red-700")
    case "REFUNDED" => Badge("Erstattet", Gray)
    case _ => Badge(status, Gray)
  }

  /** This page builds the list URL exactly as the order dialog's page does. */
  function OrdersUrl(apiUrl: string, filterStatus: string): (url: string)
    ensures url == OrderManagement.OrdersUrl(apiUrl, filterStatus)
  {
    if filterStatus == "" then apiUrl + "/api/orders" else apiUrl + "/api/orders?status=" + filterStatus
  }
}
