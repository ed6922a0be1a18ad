/** The admin dashboard: the statistics cards, and the orders tab with its date filter and
    its classification of each order row. */
module AdminDashboard {
  import opened Wrappers
  import opened Catalog
  import opened Orders
  import opened DateFilter
  import opened UserList

  /** `order.user_id !== undefined`: rows from the signed-in customers' table carry the key,
      even when it is null. */
  function OrderType(o: Order): (kind: string)
    ensures kind == "Authenticated" <==> !o.userId.Undefined?
    ensures kind == "Guest" <==> o.userId.Undefined?
  {
    if !o.userId.Undefined? then "Authenticated" else "Guest"
  }

  /** `order.total_amount || order.amount || 0`. */
  function OrderAmount(o: Order): int {
    if o.totalAmount != 0 then o.totalAmount else o.amount
  }

  /** The revenue fold: the sum of every order's amount. */
  function Revenue(orders: seq<Order>): (total: int)
    ensures orders == [] ==> total == 0
    ensures (forall k :: 0 <= k < |orders| ==> orders[k].totalAmount >= 0 && orders[k].amount >= 0) ==> total >= 0
  {
    if orders == [] then 0 else OrderAmount(orders[0]) + Revenue(orders[1..])
  }

  /** The revenue of two lists together is the sum of their revenues. */
  lemma {:induction false} RevenueAppend(a: seq<Order>, b: seq<Order>)
    ensures Revenue(a + b) == Revenue(a) + Revenue(b)
    decreases |a|
  {
    if a == [] {
      assert a + b == b;
    } else {
      assert (a + b)[1..] == a[1..] + b;
      RevenueAppend(a[1..], b);
    }
  }

  /** The four cards. */
  datatype Stats = Stats(totalProducts: nat, totalOrders: nat, totalUsers: nat, revenue: int)

  /** The revenue card's text: it is written as a constant, whatever the revenue is. */
  const RevenueCard := "₹0"

  /** `fetchStats`: the product list is required (its failure rejects the whole request and the
      cards keep their values); a failed orders or users request counts as an empty list. */
  function StatsOf(products: Option<seq<Product>>, orders: Option<seq<Order>>, users: Option<seq<UserRow>>, current: Stats): (s: Stats)
    ensures products.None? ==> s == current
    ensures products.Some? ==> s.totalProducts == |products.value|
    ensures products.Some? ==> s.totalOrders == |orders.GetOr([])| && s.revenue == Revenue(orders.GetOr([]))
    ensures products.Some? ==> s.totalUsers == |users.GetOr([])|
    ensures products.Some? && orders.None? ==> s.totalOrders == 0 && s.revenue == 0
  {
    if products.None? then current
    else Stats(|products.value|, |orders.GetOr([])|, |users.GetOr([])|, Revenue(orders.GetOr([])))
  }

  class Dashboard {
    var tab: string
    var stats: Stats
    const orders: FilteredList<Order>

    constructor (base: string)
      ensures tab == "dashboard" && stats == Stats(0, 0, 0, 0) && fresh(orders)
      ensures orders.endpoint == base + "/orders/admin/all-orders" && orders.failureText == "Failed to load orders"
      ensures orders.rows == [] && orders.fromDate == "" && orders.toDate == "" && orders.requests == []
    {
      tab := "dashboard";
      stats := Stats(0, 0, 0, 0);
      orders := new FilteredList(base + "/orders/admin/all-orders", "Failed to load orders");
    }

    /** The statistics effect with the three replies. */
    method LoadStats(products: Option<seq<Product>>, ordersReply: Option<seq<Order>>, users: Option<seq<UserRow>>)
      modifies this
      ensures stats == StatsOf(products, ordersReply, users, old(stats)) && tab == old(tab)
    {
      stats := StatsOf(products, ordersReply, users, stats);
    }

    method SelectTab(t: string)
      modifies this
      ensures tab == t && stats == old(stats)
    {
      tab := t;
    }
  }
}
