/**
 * The browser-side cart: a list of lines kept under the storage key "cart". Each
 * operation loads the list, changes it and saves it back. The line for a product is
 * found by id (the first match, as `Array.prototype.find` does).
 */
module CartStore {
  import opened Wrappers
  import opened Seqs

  /** One cart line. Prices are whole RWF. */
  datatype CartItem = CartItem(id: string, name: string, price: int, imageUrl: string, quantity: int)

  /** What a page hands to `addToCart`. */
  datatype ProductInfo = ProductInfo(id: string, name: string, price: int, imageUrl: string)

  // ---------------------------------------------------------------- the cart as a value

  /** Every line holds at least one unit. */
  predicate QuantitiesPositive(cart: seq<CartItem>) {
    forall i :: 0 <= i < |cart| ==> cart[i].quantity >= 1
  }

  /** No product has two lines. */
  predicate DistinctIds(cart: seq<CartItem>) {
    forall i, j :: 0 <= i < j < |cart| ==> cart[i].id != cart[j].id
  }

  predicate HasId(cart: seq<CartItem>, id: string) {
    exists i :: 0 <= i < |cart| && cart[i].id == id
  }

  /** `cart.find(i => i.id === id)`, as the index of the first line with that id. */
  function IndexOf(cart: seq<CartItem>, id: string): (r: Option<nat>)
    ensures r.Some? ==> r.value < |cart| && cart[r.value].id == id
    ensures r.Some? ==> forall j :: 0 <= j < r.value ==> cart[j].id != id
    ensures r.None? <==> !HasId(cart, id)
  {
    if cart == [] then None
    else if cart[0].id == id then Some(0)
    else match IndexOf(cart[1..], id)
      case Some(k) => Some(k + 1)
      case None => None
  }

  /** The line a new product gets: one unit, with the name, price and image it was added with. */
  function NewLine(p: ProductInfo): CartItem {
    CartItem(p.id, p.name, p.price, p.imageUrl, 1)
  }

  /** The cart after `addToCart(p)`. */
  function Added(cart: seq<CartItem>, p: ProductInfo): (r: seq<CartItem>)
    // an id already present: that line gains exactly one unit, nothing else moves
    ensures HasId(cart, p.id) ==>
      var i := IndexOf(cart, p.id).value;
      |r| == |cart| && r[i] == cart[i].(quantity := cart[i].quantity + 1) &&
      forall j :: 0 <= j < |cart| && j != i ==> r[j] == cart[j]
    // a new id: exactly one line is appended at the end
    ensures !HasId(cart, p.id) ==> r == cart + [NewLine(p)]
    ensures QuantitiesPositive(cart) ==> QuantitiesPositive(r)
    ensures DistinctIds(cart) ==> DistinctIds(r)
  {
    match IndexOf(cart, p.id)
    case Some(i) => cart[i := cart[i].(quantity := cart[i].quantity + 1)]
    case None => cart + [NewLine(p)]
  }

  function Max(a: int, b: int): int {
    if a >= b then a else b
  }

  /** The cart after `updateQuantity(id, qty)`. */
  function QuantitySet(cart: seq<CartItem>, id: string, qty: int): (r: seq<CartItem>)
    ensures |r| == |cart|
    ensures HasId(cart, id) ==>
      var i := IndexOf(cart, id).value;
      r[i] == cart[i].(quantity := Max(1, qty)) && r[i].quantity >= 1 && r[i].quantity >= qty &&
      forall j :: 0 <= j < |cart| && j != i ==> r[j] == cart[j]
    ensures !HasId(cart, id) ==> r == cart
    ensures QuantitiesPositive(cart) ==> QuantitiesPositive(r)
    ensures forall j :: 0 <= j < |cart| ==> r[j].id == cart[j].id
  {
    match IndexOf(cart, id)
    case Some(i) => cart[i := cart[i].(quantity := Max(1, qty))]
    case None => cart
  }

  function KeepOtherThan(id: string): CartItem -> bool {
    (item: CartItem) => item.id != id
  }

  /** The cart after `removeFromCart(id)`. */
  function Removed(cart: seq<CartItem>, id: string): (r: seq<CartItem>)
    ensures !HasId(r, id)
    ensures forall item :: item in cart && item.id != id ==> item in r
    ensures forall item :: item in r ==> item in cart
    ensures IsSubsequence(r, cart)
    ensures QuantitiesPositive(cart) ==> QuantitiesPositive(r)
  {
    FilterIsSubsequence(cart, KeepOtherThan(id));
    Filter(cart, KeepOtherThan(id))
  }

  /** Removing an id a second time changes nothing. */
  lemma RemovedIdempotent(cart: seq<CartItem>, id: string)
    ensures Removed(Removed(cart, id), id) == Removed(cart, id)
  {
    FilterIdempotent(cart, KeepOtherThan(id));
  }

  /** Adding a product and then removing it leaves the cart as removing it alone would. */
  lemma RemovedAfterAdded(cart: seq<CartItem>, p: ProductInfo)
    ensures Removed(Added(cart, p), p.id) == Removed(cart, p.id)
  {
    var keep := KeepOtherThan(p.id);
    match IndexOf(cart, p.id)
    case Some(i) =>
      var bumped := cart[i].(quantity := cart[i].quantity + 1);
      assert Added(cart, p) == cart[i := bumped];
      FilterUpdateDropped(cart, i, bumped, keep);
    case None =>
      assert Added(cart, p) == cart + [NewLine(p)];
      FilterAppend(cart, [NewLine(p)], keep);
      assert Filter([NewLine(p)], keep) == [];
  }

  /** Replacing an element that the filter drops by another one it drops changes nothing. */
  lemma {:induction false} FilterUpdateDropped(s: seq<CartItem>, i: nat, x: CartItem, keep: CartItem -> bool)
    requires i < |s| && !keep(s[i]) && !keep(x)
    ensures Filter(s[i := x], keep) == Filter(s, keep)
  {
    if i > 0 {
      assert s[i := x][1..] == s[1..][i - 1 := x];
      FilterUpdateDropped(s[1..], i - 1, x, keep);
    }
  }

  function Quantity(item: CartItem): int {
    item.quantity
  }

  /** The number of units in the cart (what the navigation bar's badge shows). */
  function Units(cart: seq<CartItem>): int {
    Sum(cart, Quantity)
  }

  /** Every `addToCart` puts exactly one more unit in the cart, whichever branch it takes. */
  lemma AddedUnits(cart: seq<CartItem>, p: ProductInfo)
    ensures Units(Added(cart, p)) == Units(cart) + 1
  {
    match IndexOf(cart, p.id)
    case Some(i) =>
      SumUpdate(cart, i, cart[i].(quantity := cart[i].quantity + 1), Quantity);
    case None =>
      SumAppend(cart, [NewLine(p)], Quantity);
  }

  /** `cart.find`, as the loop it performs. */
  method Find(cart: seq<CartItem>, id: string) returns (r: Option<nat>)
    ensures r == IndexOf(cart, id)
  {
    var i := 0;
    while i < |cart|
      invariant 0 <= i <= |cart|
      invariant forall j :: 0 <= j < i ==> cart[j].id != id
    {
      if cart[i].id == id {
        return Some(i);
      }
      i := i + 1;
    }
    return None;
  }

  // ---------------------------------------------------------------- the stored cart

  /**
   * The "cart" entry of the browser's local storage. Serialisation and the
   * "cart-change" event that tells the navigation bar to re-read it are not modelled.
   */
  class CartStorage {
    var saved: seq<CartItem>

    constructor ()
      ensures saved == []
    {
      saved := [];
    }

    /** `getCart`: the stored list. */
    method GetCart() returns (cart: seq<CartItem>)
      ensures cart == saved
    {
      cart := saved;
    }

    /** `save`: the stored list becomes `cart`. */
    method Save(cart: seq<CartItem>)
      modifies this
      ensures saved == cart
    {
      saved := cart;
    }

    /** `addToCart`: find the product's line; bump it, or push a new line. */
    method AddToCart(p: ProductInfo)
      modifies this
      ensures saved == Added(old(saved), p)
    {
      var cart := GetCart();
      var existing := Find(cart, p.id);
      match existing {
        case Some(i) =>
          cart := cart[i := cart[i].(quantity := cart[i].quantity + 1)];
        case None =>
          cart := cart + [NewLine(p)];
      }
      Save(cart);
    }

    /** `updateQuantity`: the line's quantity becomes `Math.max(1, qty)`. */
    method UpdateQuantity(id: string, qty: int)
      modifies this
      ensures saved == QuantitySet(old(saved), id, qty)
    {
      var cart := GetCart();
      var item := Find(cart, id);
      if item.Some? {
        var i := item.value;
        cart := cart[i := cart[i].(quantity := Max(1, qty))];
      }
      Save(cart);
    }

    /** `removeFromCart`: keep the lines with another id. */
    method RemoveFromCart(id: string)
      modifies this
      ensures saved == Removed(old(saved), id)
    {
      var cart := GetCart();
      Save(Removed(cart, id));
    }

    /** `clearCart`. */
    method ClearCart()
      modifies this
      ensures saved == []
    {
      Save([]);
    }
  }
}
