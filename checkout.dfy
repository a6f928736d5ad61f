/**
 * The checkout page: the cart total and `placeOrder`, an ordered series of guards
 * followed by the order request, the admin notification, clearing the stored cart
 * and the redirect. Everything the page does to the outside world is recorded, in
 * order, as an `Effect`.
 */
module Checkout {
  import opened Wrappers
  import opened Text
  import opened Seqs
  import opened CartStore
  import opened ServerTables
  import PlaceOrderRoute

  // ---------------------------------------------------------------- the total

  function LineTotal(item: CartItem): int {
    item.price * item.quantity
  }

  /** `cart.reduce((sum, item) => sum + item.price * item.quantity, 0)`. */
  function CartTotal(cart: seq<CartItem>): int {
    Sum(cart, LineTotal)
  }

  /**
   * Adding a product raises the total by one unit's price: the price stored on its
   * existing line, or the given price for a new line.
   */
  lemma AddedRaisesTotal(cart: seq<CartItem>, p: ProductInfo)
    ensures CartTotal(Added(cart, p)) == CartTotal(cart) + UnitPrice(cart, p)
  {
    match IndexOf(cart, p.id)
    case Some(i) =>
      OneMoreUnitTotal(cart, i);
    case None =>
      SumAppend(cart, [NewLine(p)], LineTotal);
  }

  /** The price one more unit of `p` costs in `cart`: its line's stored price, else the given price. */
  function UnitPrice(cart: seq<CartItem>, p: ProductInfo): int {
    match IndexOf(cart, p.id)
    case Some(i) => cart[i].price
    case None => p.price
  }

  /** One more unit on line `i` adds that line's price to the total. */
  lemma OneMoreUnitTotal(cart: seq<CartItem>, i: nat)
    requires i < |cart|
    ensures CartTotal(cart[i := cart[i].(quantity := cart[i].quantity + 1)]) == CartTotal(cart) + cart[i].price
  {
    var bumped := cart[i].(quantity := cart[i].quantity + 1);
    assert LineTotal(bumped) == LineTotal(cart[i]) + cart[i].price by {
      assert cart[i].price * (cart[i].quantity + 1) == cart[i].price * cart[i].quantity + cart[i].price;
    }
    SumUpdate(cart, i, bumped, LineTotal);
  }

  /** With non-negative prices and positive quantities the total is not negative. */
  lemma CartTotalNonNegative(cart: seq<CartItem>)
    requires QuantitiesPositive(cart)
    requires forall i :: 0 <= i < |cart| ==> cart[i].price >= 0
    ensures CartTotal(cart) >= 0
  {
    SumNonNegative(cart, LineTotal);
  }

  /** The notification counts lines, not units: with positive quantities the two differ unless every line holds one unit. */
  lemma {:induction false} LinesAtMostUnits(cart: seq<CartItem>)
    requires QuantitiesPositive(cart)
    ensures |cart| <= Units(cart)
    ensures |cart| == Units(cart) <==> forall i :: 0 <= i < |cart| ==> cart[i].quantity == 1
  {
    if cart != [] {
      assert QuantitiesPositive(cart[1..]);
      LinesAtMostUnits(cart[1..]);
      assert forall i :: 1 <= i < |cart| ==> cart[i] == cart[1..][i - 1];
    }
  }

  // ---------------------------------------------------------------- placeOrder

  /** The admin notification row. */
  datatype Notification = Notification(userRole: string, title: string, message: string, link: string)

  /** What `res.json()` made of the answer of `fetch("/api/place-order")`: `res.ok` and the body's `error` field. */
  datatype Response = Response(ok: bool, error: string)

  /**
   * An awaited call that either returns a value or throws (a rejected promise).
   * `placeOrder` catches nothing, so a throw ends the handler where it happens.
   */
  datatype Remote<T> = Returned(value: T) | Threw

  /** What `placeOrder` does outside its own variables, in order. */
  datatype Effect =
    | ShowAlert(text: string)
    | SetLoading(on: bool)
    | PostOrder(userId: string, cart: seq<CartItem>, phone: string, address: string)
    | InsertNotification(notification: Notification)
    | ClearStoredCart
    | Navigate(path: string)

  function OrderMessage(cart: seq<CartItem>): string {
    "New order placed. Items: " + NumberText(|cart|) + ", Total: " + NumberText(CartTotal(cart)) + " RWF"
  }

  function OrderNotification(cart: seq<CartItem>): Notification {
    Notification("admin", "New Order", OrderMessage(cart), "/admin/orders")
  }

  /** The two checks on the page's own state: a non-empty cart, then a phone and an address. */
  predicate GuardsPass(cart: seq<CartItem>, phone: string, address: string) {
    |cart| > 0 && Truthy(phone) && Truthy(address)
  }

  /** The guards that must pass before anything leaves the page: the page's own checks and a logged-in user. */
  predicate ReadyToPost(cart: seq<CartItem>, phone: string, address: string, login: Remote<Option<string>>) {
    GuardsPass(cart, phone, address) && login.Returned? && login.value.Some?
  }

  /**
   * The handler ends on a throw: `getUser()` rejected, or the request was made and
   * `fetch` rejected or `res.json()` could not parse the answer.
   */
  predicate EndsInThrow(cart: seq<CartItem>, phone: string, address: string, login: Remote<Option<string>>, answer: Remote<Response>) {
    GuardsPass(cart, phone, address) && (login.Threw? || (login.value.Some? && answer.Threw?))
  }

  /** The order request was sent and its answer read as a success. */
  predicate Succeeded(cart: seq<CartItem>, phone: string, address: string, login: Remote<Option<string>>, answer: Remote<Response>) {
    ReadyToPost(cart, phone, address, login) && answer.Returned? && answer.value.ok
  }

  /**
   * The effects of one `placeOrder` call. `login` is what `getUser()` gave (the
   * user's id, or none when logged out); `answer` is what `fetch` followed by
   * `res.json()` gave, used only once the request is sent.
   */
  function PlaceOrderEffects(cart: seq<CartItem>, phone: string, address: string, login: Remote<Option<string>>, answer: Remote<Response>): seq<Effect> {
    if |cart| == 0 then [ShowAlert("Cart is empty")]
    else if !Truthy(phone) || !Truthy(address) then [ShowAlert("Enter phone and address")]
    else if login.Threw? then [SetLoading(true)]
    else if login.value.None? then [SetLoading(true), ShowAlert("Login required"), SetLoading(false)]
    else
      var sent := [SetLoading(true), PostOrder(login.value.value, cart, phone, address)];
      if answer.Threw? then sent
      else if !answer.value.ok then
        sent + [ShowAlert(if Truthy(answer.value.error) then answer.value.error else "Order failed"), SetLoading(false)]
      else
        sent + [InsertNotification(OrderNotification(cart)), ClearStoredCart, SetLoading(false), Navigate("/success")]
  }

  predicate IsPost(e: Effect) {
    e.PostOrder?
  }

  predicate IsNotification(e: Effect) {
    e.InsertNotification?
  }

  /** Exactly one effect passes `test`. */
  predicate OccursOnce(effects: seq<Effect>, test: Effect -> bool) {
    (exists i :: 0 <= i < |effects| && test(effects[i])) &&
    (forall i, j :: 0 <= i < j < |effects| ==> !(test(effects[i]) && test(effects[j])))
  }

  /** No effect passes `test`. */
  predicate Never(effects: seq<Effect>, test: Effect -> bool) {
    forall i :: 0 <= i < |effects| ==> !test(effects[i])
  }

  /** The order request is sent exactly when every guard passes, and then once. */
  lemma PostOnlyWhenReady(cart: seq<CartItem>, phone: string, address: string, login: Remote<Option<string>>, answer: Remote<Response>)
    ensures var effects := PlaceOrderEffects(cart, phone, address, login, answer);
      (ReadyToPost(cart, phone, address, login) ==> OccursOnce(effects, IsPost)) &&
      (!ReadyToPost(cart, phone, address, login) ==> Never(effects, IsPost))
  {
    var effects := PlaceOrderEffects(cart, phone, address, login, answer);
    if ReadyToPost(cart, phone, address, login) {
      assert IsPost(effects[1]);
    }
  }

  /** An empty cart stops the call before anything else, with a single alert. */
  lemma EmptyCartChecksFirst(cart: seq<CartItem>, phone: string, address: string, login: Remote<Option<string>>, answer: Remote<Response>)
    requires cart == []
    ensures var effects := PlaceOrderEffects(cart, phone, address, login, answer);
      |effects| == 1 && effects[0].ShowAlert? && !IsPost(effects[0])
  {
  }

  /** A missing phone or address stops the call before the login lookup, with nothing sent or stored. */
  lemma ContactChecksBeforeLogin(cart: seq<CartItem>, phone: string, address: string, login: Remote<Option<string>>, answer: Remote<Response>,
                                 login': Remote<Option<string>>, answer': Remote<Response>)
    requires cart != [] && (phone == "" || address == "")
    ensures PlaceOrderEffects(cart, phone, address, login, answer) ==
      PlaceOrderEffects(cart, phone, address, login', answer') == [ShowAlert("Enter phone and address")]
  {
  }

  /**
   * Exactly one admin notification ("New Order", linking to /admin/orders, quoting
   * the number of lines and the total) is inserted, and only when the order request
   * succeeded; a failed or unreadable answer neither notifies nor clears the cart.
   */
  lemma NotificationIffSuccess(cart: seq<CartItem>, phone: string, address: string, login: Remote<Option<string>>, answer: Remote<Response>)
    ensures var effects := PlaceOrderEffects(cart, phone, address, login, answer);
      var success := Succeeded(cart, phone, address, login, answer);
      (success ==> OccursOnce(effects, IsNotification)) &&
      (!success ==> Never(effects, IsNotification)) &&
      (ClearStoredCart in effects <==> success) &&
      (forall e :: e in effects && e.InsertNotification? ==>
        e.notification.title == "New Order" && e.notification.link == "/admin/orders" &&
        e.notification.userRole == "admin" && e.notification.message == OrderMessage(cart))
  {
    var effects := PlaceOrderEffects(cart, phone, address, login, answer);
    if Succeeded(cart, phone, address, login, answer) {
      assert IsNotification(effects[2]);
      assert effects[3] == ClearStoredCart;
    }
  }

  /** After a successful order the cart is cleared after the notification and before the redirect to /success. */
  lemma ClearBetweenNotificationAndRedirect(cart: seq<CartItem>, phone: string, address: string, login: Remote<Option<string>>, answer: Remote<Response>)
    requires Succeeded(cart, phone, address, login, answer)
    ensures var effects := PlaceOrderEffects(cart, phone, address, login, answer);
      exists n, c, r :: 0 <= n < c < r < |effects| &&
        effects[n].InsertNotification? && effects[c] == ClearStoredCart && effects[r] == Navigate("/success")
  {
    var effects := PlaceOrderEffects(cart, phone, address, login, answer);
    assert effects[2].InsertNotification? && effects[3] == ClearStoredCart && effects[5] == Navigate("/success");
  }

  /** Every exit path that returns normally and turned `loading` on turns it off again afterwards. */
  lemma LoadingAlwaysReset(cart: seq<CartItem>, phone: string, address: string, login: Remote<Option<string>>, answer: Remote<Response>)
    requires !EndsInThrow(cart, phone, address, login, answer)
    ensures var effects := PlaceOrderEffects(cart, phone, address, login, answer);
      forall i :: 0 <= i < |effects| && effects[i] == SetLoading(true) ==>
        exists j :: i < j < |effects| && effects[j] == SetLoading(false)
  {
    var effects := PlaceOrderEffects(cart, phone, address, login, answer);
    if GuardsPass(cart, phone, address) {
      assert effects[|effects| - 1] == SetLoading(false) || effects[|effects| - 2] == SetLoading(false);
    }
  }

  /**
   * A throw after the guards leaves `loading` on for good: the button stays disabled,
   * no alert is shown, nothing is notified, the stored cart is kept and the page stays.
   */
  lemma ThrowLeavesLoadingOn(cart: seq<CartItem>, phone: string, address: string, login: Remote<Option<string>>, answer: Remote<Response>)
    requires EndsInThrow(cart, phone, address, login, answer)
    ensures var effects := PlaceOrderEffects(cart, phone, address, login, answer);
      effects[0] == SetLoading(true) && SetLoading(false) !in effects &&
      (forall e :: e in effects ==> !e.ShowAlert? && !e.InsertNotification? && !e.Navigate?) &&
      ClearStoredCart !in effects
  {
    var effects := PlaceOrderEffects(cart, phone, address, login, answer);
    assert effects == [SetLoading(true)] || effects == [SetLoading(true), effects[1]];
  }

  // ---------------------------------------------------------------- the answer of POST /api/place-order

  /**
   * The body `fetch` hands to `res.json()` for each kind of reply of the route: a
   * redirect is followed and yields the rendered page, an HTML document; plain text
   * is passed through; an uncaught error in the handler gives a 500 with no JSON body.
   */
  function ReplyBody(reply: Reply): string {
    match reply
    case RedirectTo(_) => "<!DOCTYPE html>"
    case TextReply(_, body) => body
    case ServerError => ""
  }

  predicate IsJsonSpace(c: char) {
    c == ' ' || c == '\t' || c == '\n' || c == '\r'
  }

  /** The first character `JSON.parse` meets after white space, if any. */
  function FirstNonSpace(body: string): (r: Option<char>)
    ensures r.Some? ==> r.value in body && !IsJsonSpace(r.value)
    ensures r.None? ==> forall c :: c in body ==> IsJsonSpace(c)
  {
    if body == [] then None
    else if IsJsonSpace(body[0]) then FirstNonSpace(body[1..])
    else Some(body[0])
  }

  /** A JSON text starts with an object, an array, a string, a number or a literal. */
  predicate CanStartJson(c: char) {
    c == '{' || c == '[' || c == '"' || c == '-' || ('0' <= c <= '9') || c == 't' || c == 'f' || c == 'n'
  }

  /** `res.json()` throws on a body that cannot begin a JSON text: one that is empty, blank or opens with any other character. */
  predicate JsonThrows(body: string) {
    var first := FirstNonSpace(body);
    first.None? || !CanStartJson(first.value)
  }

  /** Every reply of the route makes `res.json()` throw: none of them is JSON. */
  lemma {:induction false} RouteRepliesAreNotJson(reply: Reply)
    requires PlaceOrderRoute.PlaceOrderReply(reply)
    ensures JsonThrows(ReplyBody(reply))
  {
    match reply
    case RedirectTo(_) =>
      assert FirstNonSpace(ReplyBody(reply)) == Some('<');
    case TextReply(status, body) =>
      assert body[0] in {'C', 'O'};
      assert FirstNonSpace(body) == Some(body[0]);
    case ServerError =>
  }

  /** `await res.json()`: throws on a body that is not JSON, else gives `parsed`, what the body says. */
  function ReadAnswer(reply: Reply, parsed: Response): (answer: Remote<Response>)
    ensures answer.Threw? <==> JsonThrows(ReplyBody(reply))
  {
    if JsonThrows(ReplyBody(reply)) then Threw else Returned(parsed)
  }

  /**
   * Against this route, whatever it answers, a checkout that passes every guard sends
   * the order and then stops on the unreadable answer with `loading` still on: the
   * cart in the browser is not cleared, no notification is inserted and the page
   * does not move on, even when the route created the order.
   */
  lemma CheckoutAgainstRoute(cart: seq<CartItem>, phone: string, address: string, userId: string, reply: Reply, parsed: Response)
    requires GuardsPass(cart, phone, address) && PlaceOrderRoute.PlaceOrderReply(reply)
    ensures var answer := ReadAnswer(reply, parsed);
      PlaceOrderEffects(cart, phone, address, Returned(Some(userId)), answer) == [SetLoading(true), PostOrder(userId, cart, phone, address)] &&
      EndsInThrow(cart, phone, address, Returned(Some(userId)), answer) &&
      !Succeeded(cart, phone, address, Returned(Some(userId)), answer)
  {
    RouteRepliesAreNotJson(reply);
  }

  // ---------------------------------------------------------------- the page

  /**
   * The page's state: the cart read from storage when the page opened, the two
   * inputs, the `loading` flag, and the effects so far.
   */
  class CheckoutPage {
    var cart: seq<CartItem>
    var phone: string
    var address: string
    var loading: bool
    var effects: seq<Effect>

    /** Opening the page reads the stored cart. */
    constructor (storage: CartStorage)
      ensures cart == storage.saved && phone == "" && address == "" && !loading && effects == []
    {
      cart := storage.saved;
      phone := "";
      address := "";
      loading := false;
      effects := [];
    }

    method Emit(e: Effect)
      modifies this
      ensures effects == old(effects) + [e]
      ensures cart == old(cart) && phone == old(phone) && address == old(address)
      ensures loading == (if e.SetLoading? then e.on else old(loading))
    {
      effects := effects + [e];
      if e.SetLoading? {
        loading := e.on;
      }
    }

    /** `placeOrder`, step by step; a throw ends it at once, as nothing catches it. */
    method PlaceOrder(login: Remote<Option<string>>, answer: Remote<Response>, storage: CartStorage)
      modifies this, storage
      ensures effects == old(effects) + PlaceOrderEffects(cart, phone, address, login, answer)
      ensures cart == old(cart) && phone == old(phone) && address == old(address)
      ensures storage.saved == if Succeeded(cart, phone, address, login, answer) then [] else old(storage.saved)
      ensures loading == if GuardsPass(cart, phone, address) then EndsInThrow(cart, phone, address, login, answer) else old(loading)
    {
      if |cart| == 0 {
        Emit(ShowAlert("Cart is empty"));
        return;
      }
      if !Truthy(phone) || !Truthy(address) {
        Emit(ShowAlert("Enter phone and address"));
        return;
      }
      Emit(SetLoading(true));
      if login.Threw? {
        return;
      }
      var user := login.value;
      if user.None? {
        Emit(ShowAlert("Login required"));
        Emit(SetLoading(false));
        return;
      }
      Emit(PostOrder(user.value, cart, phone, address));
      if answer.Threw? {
        return;
      }
      var response := answer.value;
      if !response.ok {
        Emit(ShowAlert(if Truthy(response.error) then response.error else "Order failed"));
        Emit(SetLoading(false));
        return;
      }
      Emit(InsertNotification(OrderNotification(cart)));
      storage.ClearCart();
      Emit(ClearStoredCart);
      Emit(SetLoading(false));
      Emit(Navigate("/success"));
    }
  }
}
