/**
 * `POST /api/place-order`: turn the logged-in user's server cart into an order and
 * its order items, then empty the cart. The request body is not read.
 */
module PlaceOrderRoute {
  import opened Wrappers
  import opened Seqs
  import opened ServerTables

  /** `products(price)` joined to a cart item; a missing product has no price. */
  predicate AllPriced(items: seq<CartItemRow>, prices: map<string, int>) {
    forall k :: 0 <= k < |items| ==> items[k].productId in prices
  }

  function PriceOf(prices: map<string, int>, productId: string): int {
    if productId in prices then prices[productId] else 0
  }

  function LineAmount(prices: map<string, int>): CartItemRow -> int {
    (i: CartItemRow) => i.quantity * PriceOf(prices, i.productId)
  }

  /** `safeItems.reduce((sum, i) => sum + i.quantity * i.products[0].price, 0)`. */
  function OrderTotal(items: seq<CartItemRow>, prices: map<string, int>): int {
    Sum(items, LineAmount(prices))
  }

  /** The `order_items` row for one cart item. */
  function ItemRow(orderId: string, item: CartItemRow, prices: map<string, int>): OrderItemRow {
    OrderItemRow(orderId, item.productId, item.quantity, PriceOf(prices, item.productId))
  }

  function RowAmount(r: OrderItemRow): int {
    r.price * r.quantity
  }

  /**
   * The rows the loop has inserted after its first `k` rounds; the inserts whose
   * index is in `failed` returned an error, which the route ignores.
   */
  function InsertedItems(orderId: string, items: seq<CartItemRow>, prices: map<string, int>, failed: set<nat>, k: nat): seq<OrderItemRow>
    requires k <= |items|
  {
    if k == 0 then
      []
    else
      var row := if k - 1 in failed then [] else [ItemRow(orderId, items[k - 1], prices)];
      InsertedItems(orderId, items, prices, failed, k - 1) + row
  }

  /** With no failed insert, there is one order item per cart item, in the cart's order. */
  lemma {:induction false} InsertedAllInOrder(orderId: string, items: seq<CartItemRow>, prices: map<string, int>, k: nat)
    requires k <= |items|
    ensures var r := InsertedItems(orderId, items, prices, {}, k);
      |r| == k && forall j :: 0 <= j < k ==> r[j] == ItemRow(orderId, items[j], prices)
  {
    if k > 0 {
      InsertedAllInOrder(orderId, items, prices, k - 1);
    }
  }

  /** Whatever fails, every inserted row belongs to the new order and copies one cart item with its joined price. */
  lemma {:induction false} InsertedRowsComeFromCart(orderId: string, items: seq<CartItemRow>, prices: map<string, int>, failed: set<nat>, k: nat)
    requires k <= |items|
    ensures forall r :: r in InsertedItems(orderId, items, prices, failed, k) ==>
      r.orderId == orderId && exists j :: 0 <= j < k && r == ItemRow(orderId, items[j], prices)
  {
    if k > 0 {
      InsertedRowsComeFromCart(orderId, items, prices, failed, k - 1);
    }
  }

  /** With no failed insert, the order items add up to the order's `total_amount`. */
  lemma {:induction false} InsertedItemsAddUpToTotal(orderId: string, items: seq<CartItemRow>, prices: map<string, int>, k: nat)
    requires k <= |items|
    ensures Sum(InsertedItems(orderId, items, prices, {}, k), RowAmount) == OrderTotal(items[..k], prices)
  {
    if k > 0 {
      InsertedItemsAddUpToTotal(orderId, items, prices, k - 1);
      var row := ItemRow(orderId, items[k - 1], prices);
      SumAppend(InsertedItems(orderId, items, prices, {}, k - 1), [row], RowAmount);
      assert items[..k] == items[..k - 1] + [items[k - 1]];
      SumAppend(items[..k - 1], [items[k - 1]], LineAmount(prices));
      assert RowAmount(row) == LineAmount(prices)(items[k - 1]) by {
        assert row.price * row.quantity == row.quantity * row.price;
      }
    }
  }

  /** The replies `POST /api/place-order` gives. */
  predicate PlaceOrderReply(reply: Reply) {
    reply == RedirectTo("/login") || reply == TextReply(400, "Cart not found") || reply == TextReply(400, "Cart is empty") ||
    reply == ServerError || reply == TextReply(500, "Order creation failed") || reply == RedirectTo("/orders")
  }

  /** How the route ends before writing anything, or the cart, items and total it goes on with. */
  datatype Plan = Stop(reply: Reply) | Proceed(cart: CartRow, items: seq<CartItemRow>, total: int)

  /**
   * The guards of the route, in order: a user, exactly one cart, a non-empty item
   * list (`items || []`), and every item's product found by the join (otherwise
   * `products[0].price` throws).
   */
  function Prepare(carts: seq<CartRow>, cartItems: seq<CartItemRow>, prices: map<string, int>, user: Option<string>, itemsOk: bool): (plan: Plan)
    ensures user.None? ==> plan == Stop(RedirectTo("/login"))
    ensures user.Some? && SingleCart(carts, user.value).None? ==> plan == Stop(TextReply(400, "Cart not found"))
    ensures plan.Stop? ==> PlaceOrderReply(plan.reply)
    ensures plan.Proceed? ==>
      user.Some? && SingleCart(carts, user.value) == Some(plan.cart) &&
      itemsOk && plan.items == ItemsOf(cartItems, plan.cart.id) && plan.items != [] &&
      AllPriced(plan.items, prices) && plan.total == OrderTotal(plan.items, prices)
  {
    if user.None? then Stop(RedirectTo("/login"))
    else
      var cart := SingleCart(carts, user.value);
      if cart.None? then Stop(TextReply(400, "Cart not found"))
      else
        var items := if itemsOk then ItemsOf(cartItems, cart.value.id) else [];
        if |items| == 0 then Stop(TextReply(400, "Cart is empty"))
        else if !AllPriced(items, prices) then Stop(ServerError)
        else Proceed(cart.value, items, OrderTotal(items, prices))
  }

  /**
   * Once an order has gone through and the items were deleted, placing the order
   * again stops at "Cart is empty": the cart row is kept but has no items.
   */
  lemma PlacingTwiceFindsEmptyCart(carts: seq<CartRow>, cartItems: seq<CartItemRow>, prices: map<string, int>, user: Option<string>, itemsOk: bool, itemsOk': bool)
    requires Prepare(carts, cartItems, prices, user, itemsOk).Proceed?
    ensures var cart := Prepare(carts, cartItems, prices, user, itemsOk).cart;
      Prepare(carts, DeleteItemsOf(cartItems, cart.id), prices, user, itemsOk') == Stop(TextReply(400, "Cart is empty"))
  {
    var cart := Prepare(carts, cartItems, prices, user, itemsOk).cart;
    DeletedCartIsEmpty(cartItems, cart.id);
  }

  /** The guards, checked one after the other as the route does. */
  method CheckGuards(db: Database, user: Option<string>, itemsOk: bool) returns (plan: Plan)
    ensures plan == Prepare(db.carts, db.cartItems, db.prices, user, itemsOk)
  {
    if user.None? {
      return Stop(RedirectTo("/login"));
    }
    var cart := SingleCart(db.carts, user.value);
    if cart.None? {
      return Stop(TextReply(400, "Cart not found"));
    }
    var items := if itemsOk then ItemsOf(db.cartItems, cart.value.id) else [];
    if |items| == 0 {
      return Stop(TextReply(400, "Cart is empty"));
    }
    if !AllPriced(items, db.prices) {
      return Stop(ServerError);
    }
    var total := OrderTotal(items, db.prices);
    plan := Proceed(cart.value, items, total);
  }

  /** `for (const item of safeItems) insert(...)`: one insert per cart item, in order. */
  method InsertOrderItems(db: Database, orderId: string, items: seq<CartItemRow>, failedInserts: set<nat>)
    modifies db
    ensures db.orderItems == old(db.orderItems) + InsertedItems(orderId, items, db.prices, failedInserts, |items|)
    ensures db.orders == old(db.orders) && db.carts == old(db.carts)
    ensures db.cartItems == old(db.cartItems) && db.prices == old(db.prices)
  {
    var k := 0;
    while k < |items|
      invariant 0 <= k <= |items|
      invariant db.orderItems == old(db.orderItems) + InsertedItems(orderId, items, db.prices, failedInserts, k)
      invariant db.orders == old(db.orders) && db.carts == old(db.carts)
      invariant db.cartItems == old(db.cartItems) && db.prices == old(db.prices)
    {
      if k !in failedInserts {
        db.orderItems := db.orderItems + [ItemRow(orderId, items[k], db.prices)];
      }
      k := k + 1;
    }
  }

  /**
   * The route. `itemsOk` is whether the item query returned data, `orderId` the id the
   * database gives the new order, `orderOk` whether that insert returned the row,
   * `failedInserts` the loop rounds whose insert failed, `deleteOk` whether the
   * delete went through. Insert and delete errors are not checked by the route.
   */
  method PlaceOrder(db: Database, user: Option<string>, itemsOk: bool, orderId: string, orderOk: bool, failedInserts: set<nat>, deleteOk: bool)
    returns (reply: Reply)
    modifies db
    ensures var plan := Prepare(old(db.carts), old(db.cartItems), old(db.prices), user, itemsOk);
      plan.Stop? ==>
        reply == plan.reply &&
        db.orders == old(db.orders) && db.orderItems == old(db.orderItems) && db.cartItems == old(db.cartItems)
    ensures var plan := Prepare(old(db.carts), old(db.cartItems), old(db.prices), user, itemsOk);
      plan.Proceed? && !orderOk ==>
        reply == TextReply(500, "Order creation failed") &&
        db.orders == old(db.orders) && db.orderItems == old(db.orderItems) && db.cartItems == old(db.cartItems)
    ensures var plan := Prepare(old(db.carts), old(db.cartItems), old(db.prices), user, itemsOk);
      plan.Proceed? && orderOk ==>
        reply == RedirectTo("/orders") &&
        db.orders == old(db.orders) + [OrderRecord(orderId, user.value, plan.total)] &&
        db.orderItems == old(db.orderItems) + InsertedItems(orderId, plan.items, old(db.prices), failedInserts, |plan.items|) &&
        db.cartItems == (if deleteOk then DeleteItemsOf(old(db.cartItems), plan.cart.id) else old(db.cartItems))
    ensures db.carts == old(db.carts) && db.prices == old(db.prices)
    ensures PlaceOrderReply(reply)
  {
    var plan := CheckGuards(db, user, itemsOk);
    if plan.Stop? {
      return plan.reply;
    }
    if !orderOk {
      return TextReply(500, "Order creation failed");
    }
    CommitOrder(db, user.value, plan, orderId, failedInserts, deleteOk);
    reply := RedirectTo("/orders");
  }

  /** Once the order row is back: insert the order items one by one, then delete the cart's items. */
  method CommitOrder(db: Database, userId: string, plan: Plan, orderId: string, failedInserts: set<nat>, deleteOk: bool)
    requires plan.Proceed?
    modifies db
    ensures db.orders == old(db.orders) + [OrderRecord(orderId, userId, plan.total)]
    ensures db.orderItems == old(db.orderItems) + InsertedItems(orderId, plan.items, old(db.prices), failedInserts, |plan.items|)
    ensures db.cartItems == if deleteOk then DeleteItemsOf(old(db.cartItems), plan.cart.id) else old(db.cartItems)
    ensures db.carts == old(db.carts) && db.prices == old(db.prices)
  {
    db.orders := db.orders + [OrderRecord(orderId, userId, plan.total)];
    InsertOrderItems(db, orderId, plan.items, failedInserts);
    if deleteOk {
      db.cartItems := DeleteItemsOf(db.cartItems, plan.cart.id);
    }
  }
}
