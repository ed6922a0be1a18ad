/** The customer's account page: the redirect for visitors without a session, the order
    summary figures and the order history. */
module MyAccount {
  import opened Wrappers
  import opened Text
  import opened Seqs
  import opened Orders

  /** Whether an order is still pending. */
  predicate IsPending(o: Order) {
    o.status == "pending"
  }

  /** `orders.filter(o => o.status === "pending").length`. */
  function PendingCount(orders: seq<Order>): (n: nat)
    ensures n <= |orders|
  {
    Count(orders, IsPending)
  }

  /** The pending count of two lists together is the sum of their counts, and a list counts
      as many pending orders as its pending members. */
  lemma PendingCountAppend(a: seq<Order>, b: seq<Order>)
    ensures PendingCount(a + b) == PendingCount(a) + PendingCount(b)
  {
    FilterAppend(a, b, IsPending);
  }

  /** The pending count is the whole list exactly when every order is pending. */
  lemma {:induction false} AllPendingIff(orders: seq<Order>)
    ensures PendingCount(orders) == |orders| <==> forall i :: 0 <= i < |orders| ==> IsPending(orders[i])
  {
    if orders != [] {
      AllPendingIff(orders[1..]);
      assert Filter(orders, IsPending) == (if IsPending(orders[0]) then [orders[0]] else []) + Filter(orders[1..], IsPending);
      if forall i :: 1 <= i < |orders| ==> IsPending(orders[i]) {
        assert forall i :: 0 <= i < |orders[1..]| ==> IsPending(orders[1..][i]) by {
          forall i | 0 <= i < |orders[1..]| ensures IsPending(orders[1..][i]) {
            assert orders[1..][i] == orders[i + 1];
          }
        }
      } else {
        var j :| 1 <= j < |orders| && !IsPending(orders[j]);
        assert orders[1..][j - 1] == orders[j];
      }
    }
  }

  /** `sum + Number(o.total_price || 0)`, added up from the first order. */
  function TotalSpent(orders: seq<Order>): (total: int)
    ensures orders == [] ==> total == 0
    ensures (forall i :: 0 <= i < |orders| ==> orders[i].totalPrice >= 0) ==> total >= 0
  {
    if orders == [] then 0 else orders[0].totalPrice + TotalSpent(orders[1..])
  }

  /** The total spent on two lists together is the sum of their totals. */
  lemma {:induction false} TotalSpentAppend(a: seq<Order>, b: seq<Order>)
    ensures TotalSpent(a + b) == TotalSpent(a) + TotalSpent(b)
    decreases |a|
  {
    if a == [] {
      assert a + b == b;
    } else {
      assert (a + b)[1..] == a[1..] + b;
      TotalSpentAppend(a[1..], b);
    }
  }

  /** `status.charAt(0).toUpperCase() + status.slice(1)`. */
  function Capitalised(status: string): (shown: string)
    ensures |shown| == |status|
    ensures status != "" ==> shown[0] == Upper(status[0]) && shown[1..] == status[1..]
  {
    if status == "" then "" else [Upper(status[0])] + status[1..]
  }

  /** Capitalising twice is capitalising once. */
  lemma CapitalisedIdempotent(status: string)
    ensures Capitalised(Capitalised(status)) == Capitalised(status)
  {
  }

  /** The badge colour of a row: only "pending" and "completed" are coloured. */
  datatype RowBadge = YellowPill | GreenPill | GrayPill

  function RowColour(status: string): (c: RowBadge)
    ensures c == YellowPill <==> status == "pending"
    ensures c == GreenPill <==> status == "completed"
  {
    if status == "pending" then YellowPill else if status == "completed" then GreenPill else GrayPill
  }

  /** What `GET /orders` answers: the body's `orders` (`None` when absent), a non-OK status,
      or a thrown error with its message. */
  datatype OrdersReply = OrdersBody(orders: Option<seq<Order>>) | OrdersNotOk | OrdersThrown(message: string)

  /** What the page renders: nothing at all without a token (the effect sends the visitor to
      the login page), else the summary over the fetched orders and the history. */
  datatype AccountView = Redirect(to: string) | Account(totalOrders: nat, pending: nat, spent: int, error: string, history: seq<Order>)

  /** The page once the order request has settled: `data.orders || []` on success, and the
      error text with no orders otherwise. */
  function View(token: string, reply: OrdersReply): (v: AccountView)
    ensures token == "" ==> v == Redirect("/login")
    ensures token != "" && reply.OrdersBody? ==>
      v.Account? && v.history == reply.orders.GetOr([]) && v.error == "" &&
      v.totalOrders == |v.history| && v.pending == PendingCount(v.history) && v.spent == TotalSpent(v.history)
    ensures token != "" && reply.OrdersNotOk? ==> v == Account(0, 0, 0, "Failed to load orders", [])
    ensures token != "" && reply.OrdersThrown? ==> v == Account(0, 0, 0, reply.message, [])
    ensures v.Account? ==> v.pending <= v.totalOrders
  {
    if token == "" then Redirect("/login")
    else
      var orders := if reply.OrdersBody? then reply.orders.GetOr([]) else [];
      var error := match reply
        case OrdersBody(_) => ""
        case OrdersNotOk => "Failed to load orders"
        case OrdersThrown(m) => m;
      Account(|orders|, PendingCount(orders), TotalSpent(orders), error, orders)
  }
}
