/**
 * The server-side tables the two API routes read and write: `carts`, `cart_items`,
 * `orders`, `order_items`, and the product prices the item query joins in.
 * Row ids are handed in by the caller (the database generates them).
 */
module ServerTables {
  import opened Wrappers
  import opened Seqs

  datatype CartRow = CartRow(id: string, userId: string)

  datatype CartItemRow = CartItemRow(cartId: string, productId: string, quantity: int)

  datatype OrderRecord = OrderRecord(id: string, userId: string, totalAmount: int)

  datatype OrderItemRow = OrderItemRow(orderId: string, productId: string, quantity: int, price: int)

  /** What a route answers. `ServerError` is an exception the route does not catch. */
  datatype Reply = RedirectTo(path: string) | TextReply(status: int, body: string) | ServerError

  class Database {
    var carts: seq<CartRow>
    var cartItems: seq<CartItemRow>
    var orders: seq<OrderRecord>
    var orderItems: seq<OrderItemRow>
    /** `products.price` by product id; a missing id is a product the join does not find. */
    var prices: map<string, int>

    constructor (carts: seq<CartRow>, cartItems: seq<CartItemRow>, orders: seq<OrderRecord>, orderItems: seq<OrderItemRow>, prices: map<string, int>)
      ensures this.carts == carts && this.cartItems == cartItems && this.orders == orders
      ensures this.orderItems == orderItems && this.prices == prices
    {
      this.carts := carts;
      this.cartItems := cartItems;
      this.orders := orders;
      this.orderItems := orderItems;
      this.prices := prices;
    }
  }

  function OwnedBy(userId: string): CartRow -> bool {
    (c: CartRow) => c.userId == userId
  }

  /**
   * `.from("carts").select("*").eq("user_id", id).single()`: the row when exactly one
   * cart belongs to the user; no row at all, or several, give no data.
   */
  function SingleCart(carts: seq<CartRow>, userId: string): (r: Option<CartRow>)
    ensures r.Some? <==> Count(carts, OwnedBy(userId)) == 1
    ensures r.Some? ==> r.value in carts && r.value.userId == userId
  {
    var mine := Filter(carts, OwnedBy(userId));
    if |mine| == 1 then Some(mine[0]) else None
  }

  function InCart(cartId: string): CartItemRow -> bool {
    (i: CartItemRow) => i.cartId == cartId
  }

  /** `.from("cart_items").select(...).eq("cart_id", id)`, in table order. */
  function ItemsOf(cartItems: seq<CartItemRow>, cartId: string): (r: seq<CartItemRow>)
    ensures forall i :: i in r <==> i in cartItems && i.cartId == cartId
    ensures IsSubsequence(r, cartItems)
    ensures forall i :: multiset(r)[i] == if i.cartId == cartId then multiset(cartItems)[i] else 0
  {
    FilterIsSubsequence(cartItems, InCart(cartId));
    FilterMultisets(cartItems, InCart(cartId));
    Filter(cartItems, InCart(cartId))
  }

  function NotInCart(cartId: string): CartItemRow -> bool {
    (i: CartItemRow) => i.cartId != cartId
  }

  /** `.from("cart_items").delete().eq("cart_id", id)`: that cart's items go, every other row stays in order. */
  function DeleteItemsOf(cartItems: seq<CartItemRow>, cartId: string): (r: seq<CartItemRow>)
    ensures forall i :: i in r <==> i in cartItems && i.cartId != cartId
    ensures IsSubsequence(r, cartItems)
  {
    FilterIsSubsequence(cartItems, NotInCart(cartId));
    Filter(cartItems, NotInCart(cartId))
  }

  /** After the delete the cart has no items left. */
  lemma DeletedCartIsEmpty(cartItems: seq<CartItemRow>, cartId: string)
    ensures ItemsOf(DeleteItemsOf(cartItems, cartId), cartId) == []
  {
  }
}
