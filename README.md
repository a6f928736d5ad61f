# Storefront core, modelled in Dafny

This project models the behaviour of a Next.js storefront for second-hand and new
goods priced in Rwandan francs (RWF). The storefront keeps its data in a hosted
database. The model covers the parts of the code that decide something:

- the browser-side cart (`src/lib/cart.ts`): add, change quantity, remove, clear;
- the public catalogue (`app/products/page.tsx`):
  - the category, condition and name filters and the price sort;
  - the card's images and badge;
  - "add to cart";
- the admin product list (`app/admin/products/page.tsx`):
  - the three flags `status`, `is_active` and `paid`/`paid_amount`;
  - the filter tabs, badges and buttons computed from those flags;
  - the mark-paid, repost and edit-amount handlers;
- the accounting page (`app/admin/accounting/page.tsx`): purchase prices, debt payments and the totals;
- the admin dashboard's statistics and status badge (`app/admin/dashboard/page.tsx`);
- the admin order list's query selection, error view, badge and selectors (`app/admin/orders/page.tsx`);
- the checkout page's guarded `placeOrder` sequence (`app/checkout/page.tsx`);
- the two server routes over the `carts`, `cart_items`, `orders` and `order_items` tables:
  - `POST /api/add-to-cart` (`app/api/add-to-cart/route.ts`);
  - `POST /api/place-order` (`app/api/place-order/route.ts`);
- the admin notification bell (`src/components/AdminNotifications.tsx`);
- the add-product form, which exists twice (`app/admin/products/new/page.tsx` and
  `src/app/admin/products/new/page.tsx`).

The database tables are sequences of rows, in the order the page's query returns
them. Browser storage is also a sequence of rows. Every remote call that can fail has
its own input: a `bool` for success, or an `Option` for the value returned. So each
method's contract covers the success path and every failure path. Where the code
updates state (the stored cart, a page's lists, a table, the form), the model is a
class with those fields and methods with `modifies` clauses. Each method's `ensures`
ties the new state to a specification function. Lemmas then prove what the code
promises about those functions.

Modules:

- `Wrappers`: `Option`.
- `Text`: string truthiness, ASCII `toLowerCase`, `includes`, `String(n)`, and `Number(s)` with `isNaN`.
- `Seqs`: `filter`, `filter(..).length` and `reduce` as functions, with their lemmas.
- `Tables`: product and order rows; update-by-id.
- `ServerTables`: the server routes' tables.
- One module per page, component or route: `CartStore`, `Catalog`, `AdminProducts`,
  `Accounting`, `Dashboard`, `AdminOrders`, `Checkout`, `AddToCartRoute`,
  `PlaceOrderRoute`, `Notifications`, `ProductForm`.

Facts about the code that shape the model:

- The code has no inventory reservation, no time-to-live and no transaction.
- `POST /api/place-order` ignores the request body. It builds the order from the
  server-side cart.
- The route answers with a redirect or plain text, but the checkout page reads the
  answer with `res.json()` before it looks at `res.ok`. The model shows that every
  reply of the route makes that call throw (`Checkout.CheckoutAgainstRoute`).
- Order items are inserted one by one. A failed insert is not noticed.
- Selling a product (mark paid) sets `status` to "sold" and `is_active` to false.
  No product state sits between active and sold.

## Model

| member | source | states |
|---|---|---|
| CartStore.IndexOf | src/lib/cart.ts:43 | `find` by id gives the first line with that id; none exactly when no line has it |
| CartStore.Find | src/lib/cart.ts:43 | the search loop returns exactly the first index with that id, or none |
| CartStore.Added | src/lib/cart.ts:41-57 | an id already present gains exactly one unit on its line and nothing else moves; a new id appends one line with quantity 1 and the given name, price and image; distinct ids and positive quantities are preserved |
| CartStore.QuantitySet | src/lib/cart.ts:62-71 | the matching line's quantity becomes max(1, qty), so it is at least 1 and at least qty; other lines are untouched; an absent id leaves the cart unchanged; positive quantities are preserved |
| CartStore.Removed | src/lib/cart.ts:75-77 | no line with that id remains; every other line stays, in its relative order; nothing new appears; positive quantities are preserved |
| CartStore.RemovedIdempotent | src/lib/cart.ts:75-77 | removing an id twice is the same as removing it once |
| CartStore.RemovedAfterAdded | src/lib/cart.ts:41-77 | adding a product and then removing it leaves what removing it alone leaves |
| CartStore.FilterUpdateDropped | src/lib/cart.ts:46 | replacing a line the filter drops by another dropped line does not change the filtered cart |
| CartStore.AddedUnits | src/lib/cart.ts:43-55 | each add puts exactly one more unit in the cart, in either branch |
| CartStore.CartStorage.constructor | src/lib/cart.ts:21-24 | nothing stored reads as the empty cart |
| CartStore.CartStorage.GetCart | src/lib/cart.ts:21-24 | loading returns the stored list |
| CartStore.CartStorage.Save | src/lib/cart.ts:28-31 | storing replaces the stored list |
| CartStore.CartStorage.AddToCart | src/lib/cart.ts:41-57 | load, bump-or-push, save: the stored cart becomes `Added` of the old one |
| CartStore.CartStorage.UpdateQuantity | src/lib/cart.ts:62-71 | the stored cart becomes `QuantitySet` of the old one |
| CartStore.CartStorage.RemoveFromCart | src/lib/cart.ts:75-77 | the stored cart becomes `Removed` of the old one |
| CartStore.CartStorage.ClearCart | src/lib/cart.ts:81-83 | the stored cart is empty |
| Catalog.ActiveRows | app/products/page.tsx:51-59 | exactly the active products are loaded, in table order |
| Catalog.FilteredIsOneFilter | app/products/page.tsx:79-86 | the three filter steps taken in turn equal one filter by the conjunction of the switched-on tests |
| Catalog.FilteredMembers | app/products/page.tsx:79-86 | a product is listed iff it is loaded and passes the category, condition and search tests that are switched on; the list is an order-preserving subsequence of the loaded list |
| Catalog.NoFilterListsAll | app/products/page.tsx:79-86 | with no category, no condition and no text, every loaded product is listed |
| Catalog.SearchIgnoresCase | app/products/page.tsx:83-86 | typing the search in lower case lists the same products |
| Catalog.SortedByKeyPrices | app/products/page.tsx:88-89 | key order for the "low" sort is non-decreasing price; for the "high" sort it is non-increasing price |
| Catalog.SortByPrice | app/products/page.tsx:88-89 | the in-place sort leaves the array ordered by the chosen comparator and a permutation of its old contents |
| Catalog.InsertDown | app/products/page.tsx:88-89 | one insertion pass extends the sorted prefix by one element and keeps the multiset |
| Catalog.InsertingStart | app/products/page.tsx:88-89 | a sorted prefix is a valid start for an insertion pass |
| Catalog.InsertingStep | app/products/page.tsx:88-89 | swapping the moving element with a larger key before it keeps the pass invariant |
| Catalog.InsertingDone | app/products/page.tsx:88-89 | when the moving element meets a key no larger, the prefix is sorted |
| Catalog.SwapMultiset | app/products/page.tsx:88-89 | a swap keeps the multiset of products |
| Catalog.SortedCopy | app/products/page.tsx:79-89 | sorting a copy gives a sorted permutation of the filtered list |
| Catalog.ApplyFilters | app/products/page.tsx:72-92 | with sort "low" the result is the filtered products in non-decreasing price; with "high" in non-increasing price; otherwise exactly the filtered list in load order; always a permutation of the filtered list |
| Catalog.MainImage | app/products/page.tsx:237 | the first gallery image when there is a non-empty one, else `image_url` |
| Catalog.HoverImage | app/products/page.tsx:238 | the second gallery image when there is a non-empty one, else the main image |
| Catalog.ConditionBadge | app/products/page.tsx:248 | "CHAGUWA" iff the condition is "used", "NEW" otherwise |
| Catalog.CartInfo | app/products/page.tsx:108-113 | the card passes its id, name and price, and its main image rather than `image_url` |
| Catalog.HandleAddUnits | app/products/page.tsx:106-117 | adding from a card puts exactly one more unit in the cart |
| Catalog.ProductsPage.constructor | app/products/page.tsx:31-40 | nothing is loaded or chosen and no card is flagged |
| Catalog.ProductsPage.LoadProducts | app/products/page.tsx:51-59 | both lists become the active products, or empty when the query returns nothing; no filter is touched |
| Catalog.ProductsPage.SelectCategory | app/products/page.tsx:94-97 | the category is remembered and the list is re-filtered with it and the current condition, search and sort |
| Catalog.ProductsPage.SelectCondition | app/products/page.tsx:99-102 | the condition is remembered and the list is re-filtered with it and the other current choices |
| Catalog.ProductsPage.ChangeSearch | app/products/page.tsx:210-213 | the text is remembered and the list is re-filtered with it |
| Catalog.ProductsPage.ChangeSort | app/products/page.tsx:219-222 | the sort is remembered and the list is re-filtered and sorted by it |
| Catalog.ProductsPage.HandleAdd | app/products/page.tsx:106-115 | the stored cart gains the card's product with its main image, and the card is flagged "Added"; the lists and filters are unchanged |
| Catalog.ProductsPage.AddedTimerFired | app/products/page.tsx:116 | the "Added" flag clears and nothing else changes |
| AdminProducts.FilteredProducts | app/admin/products/page.tsx:153-165 | a product is shown iff it is loaded and in the selected tab; load order is kept; "all" shows every product |
| AdminProducts.AllTabKeepsEverything | app/admin/products/page.tsx:164 | the "all" tab filters nothing |
| AdminProducts.ActiveTabComplement | app/admin/products/page.tsx:155-161 | the "active" tab holds exactly the products in neither "sold" nor "hidden" |
| AdminProducts.Badges | app/admin/products/page.tsx:249-280 | PAID iff paid; SOLD iff sold and not paid; HIDDEN iff not active; ACTIVE iff not sold, not hidden and not paid; every card has a badge |
| AdminProducts.RepostIffNotActiveBadge | app/admin/products/page.tsx:278-280 | "Repost" is offered exactly on the cards without the ACTIVE badge |
| AdminProducts.ActiveBadgeIffActiveTabUnpaid | app/admin/products/page.tsx:159 | the ACTIVE badge shows iff the product is in the "active" tab and unpaid; a paid product can be in the tab without the badge |
| AdminProducts.LowerSold | app/admin/products/page.tsx:155 | "sold" lowercases to itself |
| AdminProducts.MarkedPaidState | app/admin/products/page.tsx:102-110 | a product marked paid is in the sold, hidden and paid tabs and not active; its badges are PAID(amount) and HIDDEN; it offers Repost and Edit Amount, not Mark Paid |
| AdminProducts.RepostedState | app/admin/products/page.tsx:72-80 | a reposted product is in the active tab only; it shows ACTIVE and offers Mark Paid only |
| AdminProducts.RepostIdempotent | app/admin/products/page.tsx:72-80 | reposting twice is reposting once |
| AdminProducts.RepostUndoesMarkPaid | app/admin/products/page.tsx:72-110 | from an active unpaid product, mark-paid then repost gives back the same tab memberships |
| AdminProducts.AmountEditedKeepsTabs | app/admin/products/page.tsx:136-140 | editing the amount never moves a product between tabs or changes its buttons |
| AdminProducts.PromptAmount | app/admin/products/page.tsx:96-100 | a cancelled or empty answer gives no amount; any other answer is read by `Number` |
| AdminProducts.BlankAnswerIsZero | app/admin/products/page.tsx:96-100 | an answer of one space is accepted as 0 |
| AdminProducts.AcceptingDefaultKeepsAmount | app/admin/products/page.tsx:125-140 | confirming the edit prompt unchanged writes back the shown amount, leaving the row as it was; with no amount shown, the empty default is rejected |
| AdminProducts.AdminProductsPage.constructor | app/admin/products/page.tsx:26-29 | the page starts on the "all" tab with nothing loaded |
| AdminProducts.AdminProductsPage.LoadProducts | app/admin/products/page.tsx:39-46 | the list becomes the table in query order |
| AdminProducts.AdminProductsPage.SelectTab | app/admin/products/page.tsx:153-165 | only the selected tab changes |
| AdminProducts.AdminProductsPage.HandleRepost | app/admin/products/page.tsx:68-88 | a declined confirm or a failed update changes nothing; otherwise the rows with that id are reposted and the list reloads |
| AdminProducts.AdminProductsPage.HandleMarkPaid | app/admin/products/page.tsx:92-119 | an empty, cancelled or non-numeric answer changes nothing; otherwise the rows with that id are marked paid with that amount and time, and the list reloads |
| AdminProducts.AdminProductsPage.HandleEditAmount | app/admin/products/page.tsx:123-149 | an empty, cancelled or non-numeric answer changes nothing; otherwise only `paid_amount` of the rows with that id changes, and the list reloads |
| Accounting.PaidRows | app/admin/accounting/page.tsx:34-52 | exactly the rows with `paid` true, in table order |
| Accounting.ProfitIsSumOfMargins | app/admin/accounting/page.tsx:117-132 | profit equals the sum of each row's paid amount minus purchase price, with nulls as 0 |
| Accounting.TotalsAppend | app/admin/accounting/page.tsx:117-132 | cash, purchases, debt and profit of two lists together are the sums of each |
| Accounting.OutstandingDebtNonNegative | app/admin/accounting/page.tsx:127-130 | with no negative debt recorded, the debt total is not negative |
| Accounting.DebtPayment | app/admin/accounting/page.tsx:84-93 | rejected iff the amount is NaN or not positive; otherwise the new paid amount is the old one (null as 0) plus the payment, so it strictly grows; the new debt is max(price − paid, 0), never negative, 0 iff the price is covered; `is_debt` iff debt > 0 |
| Accounting.PaymentControlMatchesFlag | app/admin/accounting/page.tsx:227 | after a payment, "Pay" is shown iff `is_debt` is set, and never once the price is covered |
| Accounting.PaymentsAccumulate | app/admin/accounting/page.tsx:91-104 | paying a and then b gives the same row as paying a + b |
| Accounting.PaymentRaisesCash | app/admin/accounting/page.tsx:97-104 | writing a payment raises the cash total by exactly the amount paid |
| Accounting.EmptyPurchasePriceIsZero | app/admin/accounting/page.tsx:57-67 | an empty purchase-price box is saved as 0, not rejected |
| Accounting.AccountingPage.constructor | app/admin/accounting/page.tsx:24-26 | the page starts loading with no rows |
| Accounting.AccountingPage.LoadPaidProducts | app/admin/accounting/page.tsx:34-52 | the rows become the paid rows, or none when the query fails; loading ends |
| Accounting.AccountingPage.SavePurchasePrice | app/admin/accounting/page.tsx:56-78 | rejected iff the value is NaN, and then nothing changes; a failed update changes nothing; otherwise only `purchase_price` of that id is written and the list reloads; the saving marker is cleared |
| Accounting.AccountingPage.PayDebt | app/admin/accounting/page.tsx:82-113 | rejected iff `DebtPayment` rejects, with no change; a failed update changes nothing; otherwise exactly the payment's three columns are written to that id and the list reloads |
| Dashboard.LoadedOrders | app/admin/dashboard/page.tsx:28 | no data reads as no orders |
| Dashboard.ProductsCount | app/admin/dashboard/page.tsx:29 | the number of product rows, or 0 when none are returned |
| Dashboard.Recent | app/admin/dashboard/page.tsx:44 | the prefix of length min(5, n) |
| Dashboard.PendingAtMostTotal | app/admin/dashboard/page.tsx:34-37 | the total is the number of orders, and the pending count is at most the total |
| Dashboard.PendingOfNewOrder | app/admin/dashboard/page.tsx:36-37 | a new order raises the pending count by one iff its status is "pending" |
| Dashboard.AllPendingIffCountIsTotal | app/admin/dashboard/page.tsx:36-37 | the pending count equals the total iff every order is pending |
| Dashboard.RevenueCountsPaidOnly | app/admin/dashboard/page.tsx:39-42 | revenue is the sum over all orders where only "paid" orders contribute their amount |
| Dashboard.RevenueOfNewOrder | app/admin/dashboard/page.tsx:39-42 | a new order adds its amount to revenue iff it is paid |
| Dashboard.RecentAreNewest | app/admin/dashboard/page.tsx:22-44 | for newest-first orders, every recent order is at least as new as every order left out |
| Dashboard.StatusColor | app/admin/dashboard/page.tsx:119-124 | fixed colours for pending, paid, delivered and cancelled; #aaa iff the status is any other value |
| Dashboard.AwaitingPaymentIsGrey | app/admin/dashboard/page.tsx:119-124 | "awaiting_payment" falls to the grey default here |
| AdminOrders.Select | app/admin/orders/page.tsx:29-35 | a non-empty search is used iff given; a status only when there is no search; otherwise everything |
| AdminOrders.Listed | app/admin/orders/page.tsx:10-37 | an order is listed iff the selected query matches it; table order is kept |
| AdminOrders.ListedNewestFirst | app/admin/orders/page.tsx:25-35 | whichever query is selected, the list stays newest first |
| AdminOrders.FilterNewestFirst | app/admin/orders/page.tsx:25-35 | filtering a newest-first list keeps it newest first |
| AdminOrders.FilterNotNewer | app/admin/orders/page.tsx:25-35 | filtering keeps a bound on creation times |
| AdminOrders.ConsNewestFirst | app/admin/orders/page.tsx:25 | an order no older than any in a newest-first list can be put in front |
| AdminOrders.NoParametersListsAll | app/admin/orders/page.tsx:25-37 | with neither parameter, every order is listed |
| AdminOrders.SearchIgnoresStatus | app/admin/orders/page.tsx:29-35 | with a non-empty search, the status parameter makes no difference |
| AdminOrders.StatusListsExactly | app/admin/orders/page.tsx:33-35 | a status without a search lists exactly the orders with that status |
| AdminOrders.Render | app/admin/orders/page.tsx:37-41 | an error replaces the table iff there is one; otherwise the table shows the selected orders |
| AdminOrders.StatusColor | app/admin/orders/page.tsx:190-198 | fixed colours for the five statuses; #aaa iff the status is none of them |
| AdminOrders.SelectableStatusesColored | app/admin/orders/page.tsx:67-72 | every selectable status has its own non-default colour, and the filter buttons offer the selector's statuses |
| AdminOrders.FilterButtonsCoverSelector | app/admin/orders/page.tsx:67-72 | each filter button lists exactly the orders the selector put in that status |
| AdminOrders.ColorsAgreeWithDashboard | app/admin/orders/page.tsx:190-198 | the two badges agree on every status except "awaiting_payment" |
| Checkout.AddedRaisesTotal | app/checkout/page.tsx:21-24 | adding a product raises the total by one unit's price |
| Checkout.OneMoreUnitTotal | app/checkout/page.tsx:21-24 | setting a line one unit higher raises the total by its price |
| Checkout.CartTotalNonNegative | app/checkout/page.tsx:21-24 | with no negative price, the total is not negative |
| Checkout.LinesAtMostUnits | app/checkout/page.tsx:76 | the notification's item count (lines) is at most the units, equal iff every line holds one unit |
| Checkout.PostOnlyWhenReady | app/checkout/page.tsx:26-60 | the order request is sent exactly once when every guard passes, and never otherwise |
| Checkout.EmptyCartChecksFirst | app/checkout/page.tsx:28-31 | an empty cart gives one alert and nothing else |
| Checkout.ContactChecksBeforeLogin | app/checkout/page.tsx:33-36 | a missing phone or address gives one alert, whatever the login state |
| Checkout.NotificationIffSuccess | app/checkout/page.tsx:64-81 | exactly one "New Order" admin notification with the /admin/orders link and the line count and total, and the cart clear, happen iff the order succeeded |
| Checkout.ClearBetweenNotificationAndRedirect | app/checkout/page.tsx:71-87 | on success the notification comes before the cart clear, which comes before the redirect to /success |
| Checkout.LoadingAlwaysReset | app/checkout/page.tsx:38-84 | every exit path that returns normally after loading was switched on switches it off later |
| Checkout.ThrowLeavesLoadingOn | app/checkout/page.tsx:38-62 | when `getUser()`, `fetch` or `res.json()` throws after the guards, loading stays on, with no alert, no notification, no cart clear and no redirect |
| Checkout.FirstNonSpace | app/checkout/page.tsx:62 | the first character after JSON white space, which is in the body; none iff the body is all white space |
| Checkout.RouteRepliesAreNotJson | app/checkout/page.tsx:62 | every reply of `POST /api/place-order` (redirect, plain text or server error) makes `res.json()` throw |
| Checkout.ReadAnswer | app/checkout/page.tsx:62 | `res.json()` throws exactly when the body cannot begin a JSON text |
| Checkout.CheckoutAgainstRoute | app/checkout/page.tsx:38-68 | against this route, a checkout that passes every guard sends the order and then stops on the answer with loading still on, without notification or cart clear |
| Checkout.CheckoutPage.constructor | app/checkout/page.tsx:12-19 | the page opens with the stored cart, empty inputs and not loading |
| Checkout.CheckoutPage.Emit | app/checkout/page.tsx:38-87 | records one effect and applies a loading change |
| Checkout.CheckoutPage.PlaceOrder | app/checkout/page.tsx:26-88 | performs exactly the effects of `PlaceOrderEffects`, stopping at a throw; the stored cart is cleared iff the order went through; once the guards pass, loading ends on iff a call threw |
| ServerTables.SingleCart | app/api/place-order/route.ts:17-25 | `.single()` returns a row iff exactly one cart belongs to the user, and then it is that user's cart |
| ServerTables.ItemsOf | app/api/place-order/route.ts:28-31 | exactly the rows of that cart, in table order |
| ServerTables.DeleteItemsOf | app/api/place-order/route.ts:70-73 | exactly the rows of other carts remain, in table order |
| ServerTables.DeletedCartIsEmpty | app/api/place-order/route.ts:70-73 | after the delete the cart has no items |
| ServerTables.Database.constructor | app/api/place-order/route.ts:5 | the tables hold the given rows |
| AddToCartRoute.AddToCart | app/api/add-to-cart/route.ts:4-45 | no user: redirect to /login, nothing written; one cart: reused; none or several: a new cart is inserted for the user; one item row with quantity 1 is inserted if that insert goes through; redirect to /cart; a failed cart insert is an uncaught error with nothing written |
| AddToCartRoute.AddingAgainAddsARow | app/api/add-to-cart/route.ts:36-40 | items are not merged: each add gives one more row for that product |
| AddToCartRoute.OneCartIsReused | app/api/add-to-cart/route.ts:20-26 | a user with exactly one cart keeps it |
| AddToCartRoute.NewCartUnlessExactlyOne | app/api/add-to-cart/route.ts:20-34 | a user without exactly one cart gets one more cart |
| AddToCartRoute.SecondAddReusesNewCart | app/api/add-to-cart/route.ts:20-34 | after a first add creates a cart, the next add finds it |
| PlaceOrderRoute.Prepare | app/api/place-order/route.ts:12-43 | no user: redirect to /login; no single cart: 400 "Cart not found"; going on means one cart, its non-empty item list, every price found and the total computed |
| PlaceOrderRoute.CheckGuards | app/api/place-order/route.ts:12-43 | the guards checked in order give exactly `Prepare` |
| PlaceOrderRoute.InsertOrderItems | app/api/place-order/route.ts:60-67 | the loop appends one row per cart item, in order, except the failed inserts |
| PlaceOrderRoute.InsertedAllInOrder | app/api/place-order/route.ts:60-67 | with no failed insert, there is one order item per cart item, in cart order |
| PlaceOrderRoute.InsertedRowsComeFromCart | app/api/place-order/route.ts:60-67 | every inserted row belongs to the new order and copies one cart item with its joined price |
| PlaceOrderRoute.InsertedItemsAddUpToTotal | app/api/place-order/route.ts:40-67 | with no failed insert, price × quantity over the order items equals the order's total |
| PlaceOrderRoute.PlacingTwiceFindsEmptyCart | app/api/place-order/route.ts:33-37 | after an order has cleared the cart, placing again stops at "Cart is empty" |
| PlaceOrderRoute.PlaceOrder | app/api/place-order/route.ts:4-76 | a guard failure or a failed order insert writes nothing and gives its reply; otherwise one order with the total is inserted, then the order items, then the cart's items are deleted (the cart row stays), with a redirect to /orders; the reply is always one of the six the route can give |
| PlaceOrderRoute.CommitOrder | app/api/place-order/route.ts:46-73 | one order row with the planned total, then the loop's order items, then the cart's items deleted if that delete goes through; carts and prices untouched |
| Notifications.AdminRows | src/components/AdminNotifications.tsx:37-43 | exactly the admin rows, in table order |
| Notifications.BadgeIffSomeUnread | src/components/AdminNotifications.tsx:50-78 | the badge shows iff some item is unread, and the count is at most the list's length |
| Notifications.SetRead | src/components/AdminNotifications.tsx:54-57 | the update keeps the table's length |
| Notifications.SetReadAt | src/components/AdminNotifications.tsx:54-57 | exactly the rows with that id become read; every other row and column is unchanged |
| Notifications.SetReadIdempotent | src/components/AdminNotifications.tsx:52-60 | marking the same notification twice is marking it once |
| Notifications.SetReadLowersUnread | src/components/AdminNotifications.tsx:50-57 | the unread count drops by the unread rows with that id and by nothing else |
| Notifications.MarkReadNeverRaisesUnread | src/components/AdminNotifications.tsx:50-60 | marking read and reloading never raises the badge's number |
| Notifications.AdminRowsSetRead | src/components/AdminNotifications.tsx:37-60 | marking read commutes with selecting the admin rows |
| Notifications.FilterAdminSetRead | src/components/AdminNotifications.tsx:37-60 | the filter behind `AdminRows` commutes with the update |
| Notifications.SetReadAppend | src/components/AdminNotifications.tsx:54-57 | the update acts on each part of a list separately |
| Notifications.Href | src/components/AdminNotifications.tsx:134 | every entry links somewhere: its own link when it has one, else "#" |
| Notifications.EmptyText | src/components/AdminNotifications.tsx:124 | "No notifications" shows iff the list is empty |
| Notifications.AdminNotifications.constructor | src/components/AdminNotifications.tsx:21-22 | the bell starts closed with nothing loaded |
| Notifications.AdminNotifications.LoadNotifications | src/components/AdminNotifications.tsx:37-48 | a failed query keeps the list; a successful one replaces it with the admin rows |
| Notifications.AdminNotifications.MarkRead | src/components/AdminNotifications.tsx:52-60 | the table is updated if the write goes through, then the list reloads from it |
| Notifications.AdminNotifications.Toggle | src/components/AdminNotifications.tsx:67 | only the open state flips |
| ProductForm.WithoutIndex | app/admin/products/new/page.tsx:61-64 | an in-range index removes one entry and keeps the others in order; an out-of-range index changes nothing |
| ProductForm.WithoutIndexKeepsOthers | app/admin/products/new/page.tsx:61-64 | every entry other than the removed one is still present |
| ProductForm.Selected | app/admin/products/new/page.tsx:48-59 | the files are appended to the images and their preview URLs to the previews, in order (no files: no change); aligned lists stay aligned and no other field changes |
| ProductForm.Removed | app/admin/products/new/page.tsx:61-64 | both lists lose the same index, so each remaining file keeps its own preview; no other field changes |
| ProductForm.FirstFailure | app/admin/products/new/page.tsx:79-99 | the index of the first failed upload, all before it succeeded; equal to the count iff none failed |
| ProductForm.Urls | app/admin/products/new/page.tsx:94-98 | the public URLs in the files' order |
| ProductForm.UploadAll | app/admin/products/new/page.tsx:79-99 | the loop reports success iff every upload succeeds, attempts uploads up to and including the first failure, and collects the URLs before it in order |
| ProductForm.NewProductRecord | app/admin/products/new/page.tsx:101-112 | `image_url` is the first URL, `images` all of them, active, price `Number(price)`, and the form's name, description, condition and category |
| ProductForm.SaveOutcomes | app/admin/products/new/page.tsx:68-130 | an incomplete form uploads nothing; uploads stop at the first failure, which inserts nothing; the row is inserted only when all uploads succeeded; only a successful insert resets the form |
| ProductForm.RetryUploadsEverything | app/admin/products/new/page.tsx:114-129 | a failed save keeps the form, so saving again uploads from the first file |
| ProductForm.SavedFormIsIncomplete | app/admin/products/new/page.tsx:119-126 | the reset form is rejected until it is filled in again |
| ProductForm.MainTileIsMainImage | app/admin/products/new/page.tsx:202-204 | the preview labelled MAIN shows the file whose URL becomes `image_url` |
| ProductForm.AppNewProductPage.constructor | app/admin/products/new/page.tsx:17-29 | the form starts blank with condition "new" |
| ProductForm.AppNewProductPage.SelectImages | app/admin/products/new/page.tsx:48-59 | the form becomes `Selected`; nothing else changes; each file keeps its preview at the same index |
| ProductForm.AppNewProductPage.RemoveImage | app/admin/products/new/page.tsx:61-64 | the form becomes `Removed`; nothing else changes; each file keeps its preview at the same index |
| ProductForm.AppNewProductPage.HandleSave | app/admin/products/new/page.tsx:68-130 | uploads, inserted rows, the alert and the new form are exactly those of `Save` with this page's texts; loading is off after every path that set it |
| ProductForm.AppNewProductPage.Finish | app/admin/products/new/page.tsx:114-129 | records the step's uploads, rows, alert and form, and clears loading |
| ProductForm.SrcNewProductPage.constructor | src/app/admin/products/new/page.tsx:17-28 | the form starts blank with condition "new" |
| ProductForm.SrcNewProductPage.SelectImages | src/app/admin/products/new/page.tsx:47-60 | the form becomes `Selected`; nothing else changes; each file keeps its preview at the same index |
| ProductForm.SrcNewProductPage.RemoveImage | src/app/admin/products/new/page.tsx:62-65 | the form becomes `Removed`; nothing else changes; each file keeps its preview at the same index |
| ProductForm.SrcNewProductPage.HandleSave | src/app/admin/products/new/page.tsx:69-131 | the same save with this page's own alert texts |
| ProductForm.SrcNewProductPage.Finish | src/app/admin/products/new/page.tsx:115-131 | records the step's uploads, rows, alert and form, and clears loading |
| Tables.UpdateWhereId | app/admin/products/page.tsx:72-80 | `update(...).eq("id", id)` changes exactly the rows with that id, keeping length and order |
| Tables.UpdateWhereIdAt | app/admin/products/page.tsx:72-80 | with unique ids, the update changes only that one row |
| Text.Lower | app/products/page.tsx:85 | lower-casing keeps the length and lowers each ASCII letter |
| Text.LowerIdempotent | app/products/page.tsx:85 | lowering twice is lowering once |
| Text.ContainsIffOccurs | app/products/page.tsx:85 | `includes` holds iff the needle occurs at some position |
| Text.ContainsEmpty | app/products/page.tsx:83 | the empty text occurs in every name |
| Text.ParseNumber | app/admin/accounting/page.tsx:57 | a blank string reads as 0; NaN only for a non-blank string |
| Text.ParseNumberText | app/admin/products/page.tsx:125-131 | `Number(String(n)) == n` for every integer n |
| Seqs.FilterIsSubsequence | app/products/page.tsx:81-86 | a filter keeps elements in their relative order |
| Seqs.FilterMultiset | app/products/page.tsx:81-86 | a filter keeps every copy of an element that passes and none of one that fails |
| Seqs.FilterMultisets | app/products/page.tsx:81-86 | the same for every element at once |
| Seqs.FilterAppend | app/api/add-to-cart/route.ts:36-40 | filtering a concatenation is concatenating the filtered parts |
| Seqs.SumAppend | app/checkout/page.tsx:21-24 | the sum of a concatenation is the sum of the parts |
| Seqs.SumUpdate | app/admin/accounting/page.tsx:117-120 | replacing one element changes the sum by the difference |

## Left out

- Browser storage. The model leaves out JSON serialisation and the `typeof window` check. It also leaves out the "cart-change" event that tells the navigation bar to re-read the cart (src/lib/cart.ts:13-31). The stored cart is a field that `GetCart` reads and `Save` replaces.
- `toLowerCase` lowers ASCII letters only. Other Unicode case mappings are not modelled.
- `Number(s)` is modelled for integer numerals only: an optional sign and decimal digits, with surrounding white space trimmed, and blank as 0. Fractions, exponents, hex literals and "Infinity" read as NaN (`None`). Amounts are whole RWF; JavaScript floating point and `toLocaleString` formatting are not modelled.
- Timers and polling are not modelled. The 800 ms "Added" flash is the separate method `AddedTimerFired`. The 5 s notification poll is a repeated `LoadNotifications`.
- The add-product forms leave out blob storage, public-URL generation, `URL.createObjectURL` and `Date.now()` file naming. The result of upload k is the input `outcome(k)`, and preview URLs are inputs. Loading the category list is not modelled. The empty category choice `""` is `None`.
- The admin product page's `handleDelete` and its link to the edit page are not modelled: the delete goes to a route outside this model.
- The admin order search uses two `ilike '%text%'` patterns. They are modelled as case-insensitive substring tests on the id and the user id. Wildcard characters typed into the search are not modelled.
- Database ordering (`order by created_at desc`, `paid_at desc`) is taken as given. Each table is held in the order the page's query returns it.
- The HTTP exchange between the checkout page and `POST /api/place-order` is modelled only as far as `res.json()`. The body of each reply is taken as: an HTML document for a followed redirect, the text itself for a plain-text reply, and no JSON for an uncaught error. `JSON.parse` is modelled only by its first character. What a JSON body would say is an input (`res.ok` and the `error` field).
- Checkout.CheckoutPage.PlaceOrder: a rejected `getUser()`, a rejected `fetch` and a throwing `res.json()` are one kind of input (`Threw`). The model does not tell them apart. In each case the request is taken as sent once `fetch` is called.
- PlaceOrderRoute.Prepare: the join `products(price)` is a map from product id to price. The model assumes the route's `i.products[0].price` finds the product's price, which holds only if the join returns the product as a list. The schema is not part of the repository. Other pages read the same kind of join as one object (app/admin/orders/page.tsx:104, app/admin/orders/[id]/page.tsx:147). With an object, `products[0]` is undefined, so every non-empty cart would end in a server error and no order would be created. That case is not modelled. A cart item whose product is missing makes `products[0].price` throw; the model reports this as `ServerError`.
- The posted `product_id` of the add-to-cart route is a string. A missing form field (`null`) is not modelled.
- Catalog.SortByPrice: proves the result is sorted by the comparator and is a permutation of its input. It does not prove that equal prices keep their order (stability of `Array.prototype.sort`).
- Insert, update and delete errors that the code ignores are inputs saying whether the write happened, with no reply. This covers order items, the cart-items delete, the add-to-cart item insert and the notification update.
- Notifications.AdminNotifications.LoadNotifications: a successful query that returns `null` data is not modelled. Success always gives the admin rows.
- AdminProducts.AdminProductsPage.LoadProducts: assumes the reload query returns the table. The `data || []` branch for a failed query is not modelled.
- Checkout.CheckoutPage.PlaceOrder: the admin notification insert is taken to succeed. Its result is not read by the page.
- Push notifications, WhatsApp messages, authentication screens and pages that only query and render are not modelled: they have no logic of their own beyond calls into other services.
- The display-only totals of the cart page and the navigation bar are not modelled. They repeat `CartTotal` and `Units`.
