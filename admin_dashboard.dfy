/**
 * The back-office dashboard: the stock, pending-order and revenue counters and the
 * low-stock warning.
 */
module AdminDashboard {
  import opened Wrappers
  import Seqs
  import ProductManagement

  datatype Stats = Stats(totalProducts: nat, lowStockProducts: nat, outOfStockProducts: nat, pendingOrders: nat, totalRevenue: int)

  /** The counters before anything is loaded. */
  const InitialStats := Stats(0, 0, 0, 0, 0)

  /**
   * The three answers, once all requests completed. `products` is None when its answer
   * was not ok or carried no list; `pendingOrders` the length of the pending-order list,
   * None when not ok or absent; `totalRevenue` None when not ok, absent or 0.
   */
  datatype StatsAnswers = StatsAnswers(
    products: Option<seq<ProductManagement.AdminProduct>>, pendingOrders: Option<nat>, totalRevenue: Option<int>)

  /** Low stock: some left, but no more than the minimum; such a product's stock is shown red. */
  function LowStock(p: ProductManagement.AdminProduct): (low: bool)
    ensures low ==> p.stock >= 1 && ProductManagement.StockShownRed(p)
  {
    p.stock > 0 && p.stock <= p.minStock
  }

  /** Out of stock: none left. No product is both low and out of stock. */
  function OutOfStock(p: ProductManagement.AdminProduct): (out: bool)
    ensures out ==> !LowStock(p)
    ensures out && p.minStock >= 0 ==> ProductManagement.StockShownRed(p)
  {
    p.stock <= 0
  }

  /**
   * `fetchStats`; `answers` is None when a request or a body failed, which leaves the
   * counters as they were. Each counter is 0 when its answer was not ok. Low-stock and
   * out-of-stock products are disjoint groups, so together they never exceed the total.
   */
  function FetchStats(current: Stats, answers: Option<StatsAnswers>): (s: Stats)
    ensures answers.None? ==> s == current
    ensures answers.Some? ==>
              && s.totalProducts == |answers.value.products.GetOr([])|
              && s.lowStockProducts == Seqs.Count(answers.value.products.GetOr([]), LowStock)
              && s.outOfStockProducts == Seqs.Count(answers.value.products.GetOr([]), OutOfStock)
              && s.pendingOrders == answers.value.pendingOrders.GetOr(0)
              && s.totalRevenue == answers.value.totalRevenue.GetOr(0)
    ensures answers.Some? ==> s.lowStockProducts + s.outOfStockProducts <= s.totalProducts
  {
    match answers
    case None => current
    case Some(a) =>
      var all := a.products.GetOr([]);
      Seqs.DisjointCounts(all, LowStock, OutOfStock);
      Stats(|all|, Seqs.Count(all, LowStock), Seqs.Count(all, OutOfStock), a.pendingOrders.GetOr(0), a.totalRevenue.GetOr(0))
  }

  /** Every product the dashboard counts as low or out of stock is shown in red in the product table. */
  lemma CountedProductsShownRed(p: ProductManagement.AdminProduct)
    requires LowStock(p) || (OutOfStock(p) && p.minStock >= 0)
    ensures ProductManagement.StockShownRed(p)
  {
  }

  /** The warning: the low-stock sentence, and the out-of-stock sentence when there are such products. */
  datatype StockWarning = StockWarning(lowCount: nat, lowPhrase: string, outOfStock: Option<OutOfStockNote>)

  datatype OutOfStockNote = OutOfStockNote(count: nat, phrase: string)

  /** The warning shows only for low-stock products; the wording is singular exactly for one product. */
  function LowStockWarning(stats: Stats): (w: Option<StockWarning>)
    ensures w.Some? <==> stats.lowStockProducts > 0
    ensures w.Some? ==> w.value.lowCount == stats.lowStockProducts
    ensures w.Some? ==> (w.value.lowPhrase == "Produkt hat" <==> stats.lowStockProducts == 1)
    ensures w.Some? ==> (w.value.outOfStock.Some? <==> stats.outOfStockProducts > 0)
    ensures w.Some? && w.value.outOfStock.Some? ==>
              (w.value.outOfStock.value.phrase == "Produkt ist" <==> stats.outOfStockProducts == 1)
  {
    if stats.lowStockProducts > 0 then
      var outNote :=
        if stats.outOfStockProducts > 0 then
          Some(OutOfStockNote(stats.outOfStockProducts,
                              if stats.outOfStockProducts == 1 then "Produkt ist" else "Produkte sind"))
        else None;
      Some(StockWarning(stats.lowStockProducts,
                        if stats.lowStockProducts == 1 then "Produkt hat" else "Produkte haben", outNote))
    else None
  }
}
