/**
 * The admin order list: which query the `search` and `status` parameters select,
 * what the query returns, the error view, the status badge and the two selectors.
 * The order rows come from the database newest first.
 */
module AdminOrders {
  import opened Wrappers
  import opened Text
  import opened Seqs
  import opened Tables
  import Dashboard

  /** The query the page builds: text search on id and user id, one status, or everything. */
  datatype Selection = SearchText(text: string) | OneStatus(status: string) | Everything

  /** `if (search) ... else if (status) ...`: a non-empty search wins over the status. */
  function Select(search: Option<string>, status: Option<string>): (sel: Selection)
    ensures search.Some? && search.value != "" <==> sel.SearchText?
    ensures sel.SearchText? ==> sel.text == search.value
    ensures sel.OneStatus? <==> (search.None? || search.value == "") && status.Some? && status.value != ""
    ensures sel.OneStatus? ==> sel.status == status.value
  {
    if search.Some? && Truthy(search.value) then SearchText(search.value)
    else if status.Some? && Truthy(status.value) then OneStatus(status.value)
    else Everything
  }

  /** `id.ilike.%s%` or `user_id.ilike.%s%`, read as a case-insensitive substring test. */
  predicate SearchHit(o: OrderRow, text: string) {
    ContainsIgnoringCase(o.id, text) || ContainsIgnoringCase(o.userId, text)
  }

  function SelectionTest(sel: Selection): OrderRow -> bool {
    (o: OrderRow) =>
      match sel
      case SearchText(text) => SearchHit(o, text)
      case OneStatus(status) => o.status == status
      case Everything => true
  }

  /** The rows the selected query returns, in the table's (newest-first) order. */
  function Listed(orders: seq<OrderRow>, sel: Selection): (r: seq<OrderRow>)
    ensures forall o :: o in r <==> o in orders && SelectionTest(sel)(o)
    ensures IsSubsequence(r, orders)
    ensures forall o :: multiset(r)[o] == if SelectionTest(sel)(o) then multiset(orders)[o] else 0
  {
    FilterIsSubsequence(orders, SelectionTest(sel));
    FilterMultisets(orders, SelectionTest(sel));
    Filter(orders, SelectionTest(sel))
  }

  predicate NewestFirst(orders: seq<OrderRow>) {
    forall i, j :: 0 <= i < j < |orders| ==> orders[i].createdAt >= orders[j].createdAt
  }

  /** Whatever the parameters, the page keeps the newest-first order. */
  lemma ListedNewestFirst(orders: seq<OrderRow>, sel: Selection)
    requires NewestFirst(orders)
    ensures NewestFirst(Listed(orders, sel))
  {
    FilterNewestFirst(orders, SelectionTest(sel));
  }

  lemma {:induction false} FilterNewestFirst(orders: seq<OrderRow>, keep: OrderRow -> bool)
    requires NewestFirst(orders)
    ensures NewestFirst(Filter(orders, keep))
  {
    if orders != [] {
      var tail := orders[1..];
      assert NewestFirst(tail);
      FilterNewestFirst(tail, keep);
      if keep(orders[0]) {
        FilterNotNewer(tail, keep, orders[0].createdAt);
        ConsNewestFirst(orders[0], Filter(tail, keep));
        assert Filter(orders, keep) == [orders[0]] + Filter(tail, keep);
      } else {
        assert Filter(orders, keep) == Filter(tail, keep);
      }
    }
  }

  lemma {:induction false} FilterNotNewer(orders: seq<OrderRow>, keep: OrderRow -> bool, t: int)
    requires forall k :: 0 <= k < |orders| ==> orders[k].createdAt <= t
    ensures forall k :: 0 <= k < |Filter(orders, keep)| ==> Filter(orders, keep)[k].createdAt <= t
  {
    if orders != [] {
      FilterNotNewer(orders[1..], keep, t);
    }
  }

  lemma ConsNewestFirst(o: OrderRow, rest: seq<OrderRow>)
    requires NewestFirst(rest)
    requires forall k :: 0 <= k < |rest| ==> rest[k].createdAt <= o.createdAt
    ensures NewestFirst([o] + rest)
  {
    var all := [o] + rest;
    forall i, j | 0 <= i < j < |all| ensures all[i].createdAt >= all[j].createdAt {
      assert all[j] == rest[j - 1];
      if i > 0 {
        assert all[i] == rest[i - 1];
      }
    }
  }

  /** With neither parameter every order is listed. */
  lemma NoParametersListsAll(orders: seq<OrderRow>)
    ensures Listed(orders, Select(None, None)) == orders
  {
    FilterKeepsAll(orders, SelectionTest(Everything));
  }

  /** A non-empty search makes the status parameter irrelevant. */
  lemma SearchIgnoresStatus(orders: seq<OrderRow>, search: string, status: Option<string>, status': Option<string>)
    requires search != ""
    ensures Listed(orders, Select(Some(search), status)) == Listed(orders, Select(Some(search), status'))
  {
  }

  /** A status without a search lists exactly the orders with that status. */
  lemma StatusListsExactly(orders: seq<OrderRow>, status: string, o: OrderRow)
    requires status != ""
    ensures o in Listed(orders, Select(None, Some(status))) <==> o in orders && o.status == status
  {
  }

  /** What the page renders: the error as text, or the table of listed orders. */
  datatype View = ErrorView(error: string) | TableView(orders: seq<OrderRow>)

  /** `if (error) return <pre>…</pre>`: an error replaces the table. */
  function Render(orders: seq<OrderRow>, search: Option<string>, status: Option<string>, error: Option<string>): (v: View)
    ensures error.Some? <==> v.ErrorView?
    ensures error.Some? ==> v.error == error.value
    ensures error.None? ==> v.orders == Listed(orders, Select(search, status))
  {
    if error.Some? then ErrorView(error.value) else TableView(Listed(orders, Select(search, status)))
  }

  // ---------------------------------------------------------------- badges and selectors

  /** `StatusBadge`'s background colour on this page. */
  function StatusColor(status: string): (color: string)
    ensures status == "pending" ==> color == "#f59e0b"
    ensures status == "awaiting_payment" ==> color == "#f97316"
    ensures status == "paid" ==> color == "#22c55e"
    ensures status == "delivered" ==> color == "#3b82f6"
    ensures status == "cancelled" ==> color == "#ef4444"
    ensures status !in StatusOptions() <==> color == "#aaa"
  {
    if status == "pending" then "#f59e0b"
    else if status == "awaiting_payment" then "#f97316"
    else if status == "paid" then "#22c55e"
    else if status == "delivered" then "#3b82f6"
    else if status == "cancelled" then "#ef4444"
    else "#aaa"
  }

  /** The values of the order-status selector, in display order. */
  function StatusOptions(): seq<string> {
    ["pending", "awaiting_payment", "paid", "delivered", "cancelled"]
  }

  /** The values of the payment-status selector. */
  function PaymentOptions(): seq<string> {
    ["unpaid", "paid"]
  }

  /** The filter buttons' `status` values: the same statuses as the selector. */
  function FilterButtonStatuses(): seq<string> {
    ["pending", "awaiting_payment", "paid", "delivered", "cancelled"]
  }

  /** Every status the selector can set gets its own colour, none of them the fallback, and no two alike. */
  lemma SelectableStatusesColored()
    ensures forall s :: s in StatusOptions() ==> StatusColor(s) != "#aaa"
    ensures forall i, j :: 0 <= i < j < |StatusOptions()| ==> StatusColor(StatusOptions()[i]) != StatusColor(StatusOptions()[j])
    ensures FilterButtonStatuses() == StatusOptions()
  {
  }

  /** A filter button lists exactly the orders the status selector put in that status. */
  lemma FilterButtonsCoverSelector(orders: seq<OrderRow>, k: nat, o: OrderRow)
    requires k < |FilterButtonStatuses()|
    ensures o in Listed(orders, Select(None, Some(FilterButtonStatuses()[k]))) <==>
      o in orders && o.status == StatusOptions()[k]
  {
  }

  /** The two status badges agree except on "awaiting_payment", which only this page colours. */
  lemma ColorsAgreeWithDashboard(status: string)
    ensures status != "awaiting_payment" ==> StatusColor(status) == Dashboard.StatusColor(status)
    ensures StatusColor("awaiting_payment") != Dashboard.StatusColor("awaiting_payment")
  {
  }
}
