/**
 * The admin dashboard: order statistics over the loaded orders (newest first),
 * the product count, and the status badge of the recent-orders list.
 */
module Dashboard {
  import opened Wrappers
  import opened Seqs
  import opened Tables

  function StatusIs(status: string): OrderRow -> bool {
    (o: OrderRow) => o.status == status
  }

  function TotalAmount(o: OrderRow): int {
    o.totalAmount
  }

  /** An order's contribution to revenue: its amount when paid, else nothing. */
  function PaidAmount(o: OrderRow): int {
    if o.status == "paid" then o.totalAmount else 0
  }

  /** `ordersData || []`. */
  function LoadedOrders(data: Option<seq<OrderRow>>): (orders: seq<OrderRow>)
    ensures data.None? ==> orders == []
    ensures data.Some? ==> orders == data.value
  {
    data.GetOr([])
  }

  /** The four numbers and the list the dashboard shows. */
  datatype Stats = Stats(totalOrders: nat, pendingOrders: nat, revenue: int, recentOrders: seq<OrderRow>, productsCount: nat)

  /** `products?.length || 0`. */
  function ProductsCount<T>(products: Option<seq<T>>): (n: nat)
    ensures products.None? ==> n == 0
    ensures products.Some? ==> n == |products.value|
  {
    if products.Some? then |products.value| else 0
  }

  /** `orders.slice(0, 5)`. */
  function Recent(orders: seq<OrderRow>): (r: seq<OrderRow>)
    ensures |r| == if |orders| < 5 then |orders| else 5
    ensures r <= orders
  {
    if |orders| < 5 then orders else orders[..5]
  }

  function DashboardStats<T>(orders: seq<OrderRow>, products: Option<seq<T>>): Stats {
    Stats(
      |orders|,
      Count(orders, StatusIs("pending")),
      Sum(Filter(orders, StatusIs("paid")), TotalAmount),
      Recent(orders),
      ProductsCount(products))
  }

  /** The total is the number of loaded orders, and the pending count never exceeds it. */
  lemma PendingAtMostTotal<T>(orders: seq<OrderRow>, products: Option<seq<T>>)
    ensures var s := DashboardStats(orders, products);
      s.totalOrders == |orders| && s.pendingOrders <= s.totalOrders
  {
  }

  /** A new order adds one to the pending count exactly when its status is "pending". */
  lemma PendingOfNewOrder<T>(orders: seq<OrderRow>, o: OrderRow, products: Option<seq<T>>)
    ensures DashboardStats([o] + orders, products).pendingOrders ==
      DashboardStats(orders, products).pendingOrders + (if o.status == "pending" then 1 else 0)
  {
    assert ([o] + orders)[1..] == orders;
  }

  /** The pending count reaches the total only when every order is pending. */
  lemma {:induction false} AllPendingIffCountIsTotal(orders: seq<OrderRow>)
    ensures Count(orders, StatusIs("pending")) == |orders| <==> forall i :: 0 <= i < |orders| ==> orders[i].status == "pending"
  {
    if orders != [] {
      AllPendingIffCountIsTotal(orders[1..]);
      assert forall i :: 1 <= i < |orders| ==> orders[i] == orders[1..][i - 1];
    }
  }

  /** Revenue adds up the amounts of the "paid" orders only: every other status counts for 0. */
  lemma RevenueCountsPaidOnly<T>(orders: seq<OrderRow>, products: Option<seq<T>>)
    ensures DashboardStats(orders, products).revenue == Sum(orders, PaidAmount)
  {
    SumFilter(orders, StatusIs("paid"), TotalAmount, PaidAmount);
  }

  /** A new order that is not paid leaves the revenue where it was; a paid one adds its amount. */
  lemma RevenueOfNewOrder<T>(orders: seq<OrderRow>, o: OrderRow, products: Option<seq<T>>)
    ensures DashboardStats([o] + orders, products).revenue ==
      DashboardStats(orders, products).revenue + (if o.status == "paid" then o.totalAmount else 0)
  {
    RevenueCountsPaidOnly([o] + orders, products);
    RevenueCountsPaidOnly(orders, products);
    assert ([o] + orders)[1..] == orders;
  }

  /** The recent list is the newest five: every order it shows comes before every order it hides. */
  lemma RecentAreNewest<T>(orders: seq<OrderRow>, products: Option<seq<T>>)
    requires forall i, j :: 0 <= i < j < |orders| ==> orders[i].createdAt >= orders[j].createdAt
    ensures var r := DashboardStats(orders, products).recentOrders;
      forall i, j :: 0 <= i < |r| <= j < |orders| ==> r[i].createdAt >= orders[j].createdAt
  {
  }

  // ---------------------------------------------------------------- the badge

  /** `StatusBadge`'s background colour. */
  function StatusColor(status: string): (color: string)
    ensures status == "pending" ==> color == "#f59e0b"
    ensures status == "paid" ==> color == "#22c55e"
    ensures status == "delivered" ==> color == "#3b82f6"
    ensures status == "cancelled" ==> color == "#ef4444"
    ensures status !in {"pending", "paid", "delivered", "cancelled"} <==> color == "#aaa"
  {
    if status == "pending" then "#f59e0b"
    else if status == "paid" then "#22c55e"
    else if status == "delivered" then "#3b82f6"
    else if status == "cancelled" then "#ef4444"
    else "#aaa"
  }

  /** An order awaiting payment gets the grey fallback on the dashboard. */
  lemma AwaitingPaymentIsGrey()
    ensures StatusColor("awaiting_payment") == "#aaa"
  {
  }
}
