/**
 * `POST /api/add-to-cart`: find the logged-in user's cart, creating one when
 * `.single()` finds none, and insert one item row with quantity 1.
 */
module AddToCartRoute {
  import opened Wrappers
  import opened Seqs
  import opened ServerTables

  /**
   * The route. `productId` is the posted form field, `newCartId` the id the database
   * gives a created cart, `cartInsertOk` whether that insert returned the row,
   * `itemInsertOk` whether the item insert went through (the route does not check).
   * When no cart could be found or created, `cart.id` throws.
   */
  method AddToCart(db: Database, user: Option<string>, productId: string, newCartId: string, cartInsertOk: bool, itemInsertOk: bool)
    returns (reply: Reply)
    modifies db
    ensures user.None? ==>
      reply == RedirectTo("/login") && db.carts == old(db.carts) && db.cartItems == old(db.cartItems)
    ensures user.Some? && SingleCart(old(db.carts), user.value).Some? ==>
      reply == RedirectTo("/cart") && db.carts == old(db.carts) &&
      db.cartItems == old(db.cartItems) +
        (if itemInsertOk then [CartItemRow(SingleCart(old(db.carts), user.value).value.id, productId, 1)] else [])
    ensures user.Some? && SingleCart(old(db.carts), user.value).None? && cartInsertOk ==>
      reply == RedirectTo("/cart") && db.carts == old(db.carts) + [CartRow(newCartId, user.value)] &&
      db.cartItems == old(db.cartItems) + (if itemInsertOk then [CartItemRow(newCartId, productId, 1)] else [])
    ensures user.Some? && SingleCart(old(db.carts), user.value).None? && !cartInsertOk ==>
      reply == ServerError && db.carts == old(db.carts) && db.cartItems == old(db.cartItems)
    ensures db.orders == old(db.orders) && db.orderItems == old(db.orderItems) && db.prices == old(db.prices)
  {
    if user.None? {
      return RedirectTo("/login");
    }
    var cart := SingleCart(db.carts, user.value);
    if cart.None? {
      if cartInsertOk {
        db.carts := db.carts + [CartRow(newCartId, user.value)];
        cart := Some(CartRow(newCartId, user.value));
      }
    }
    if cart.None? {
      return ServerError;
    }
    if itemInsertOk {
      db.cartItems := db.cartItems + [CartItemRow(cart.value.id, productId, 1)];
    }
    reply := RedirectTo("/cart");
  }

  /**
   * Items are not merged: adding a product that is already in the cart adds a second
   * row, so the cart holds one more row for that product after every successful add.
   */
  lemma {:induction false} AddingAgainAddsARow(items: seq<CartItemRow>, cartId: string, productId: string)
    ensures Count(items + [CartItemRow(cartId, productId, 1)], SameLine(cartId, productId)) ==
      Count(items, SameLine(cartId, productId)) + 1
  {
    var row := CartItemRow(cartId, productId, 1);
    var test := SameLine(cartId, productId);
    FilterAppend(items, [row], test);
    assert Filter([row], test) == [row];
  }

  function SameLine(cartId: string, productId: string): CartItemRow -> bool {
    (i: CartItemRow) => i.cartId == cartId && i.productId == productId
  }

  /** A user who has exactly one cart keeps it: the route never creates a second one then. */
  lemma OneCartIsReused(carts: seq<CartRow>, userId: string)
    requires Count(carts, OwnedBy(userId)) == 1
    ensures SingleCart(carts, userId).Some?
  {
  }

  /**
   * A user with no cart gets exactly one; a user who somehow has two or more also
   * gets another one, because `.single()` reports no row for them.
   */
  lemma NewCartUnlessExactlyOne(carts: seq<CartRow>, userId: string, newCartId: string)
    requires Count(carts, OwnedBy(userId)) != 1
    ensures SingleCart(carts, userId).None?
    ensures Count(carts + [CartRow(newCartId, userId)], OwnedBy(userId)) == Count(carts, OwnedBy(userId)) + 1
  {
    FilterAppend(carts, [CartRow(newCartId, userId)], OwnedBy(userId));
    assert Filter([CartRow(newCartId, userId)], OwnedBy(userId)) == [CartRow(newCartId, userId)];
  }

  /** After a first add by a user with no cart, the next add finds that cart and reuses it. */
  lemma SecondAddReusesNewCart(carts: seq<CartRow>, userId: string, newCartId: string)
    requires Count(carts, OwnedBy(userId)) == 0
    ensures SingleCart(carts + [CartRow(newCartId, userId)], userId) == Some(CartRow(newCartId, userId))
  {
    NewCartUnlessExactlyOne(carts, userId, newCartId);
    FilterAppend(carts, [CartRow(newCartId, userId)], OwnedBy(userId));
    assert Filter([CartRow(newCartId, userId)], OwnedBy(userId)) == [CartRow(newCartId, userId)];
  }
}
