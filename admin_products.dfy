/**
 * The admin product list: three flags per product (`status`, `is_active`,
 * `paid`/`paid_amount`), the filter tabs and badges computed from them, and the
 * handlers that change them (mark paid, repost, edit the paid amount), each of
 * which writes one row and reloads the list.
 */
module AdminProducts {
  import opened Wrappers
  import opened Text
  import opened Seqs
  import opened Tables

  // ---------------------------------------------------------------- the three flags

  /** `p.status?.toLowerCase() === "sold"`. */
  predicate IsSold(p: ProductRow) {
    p.status.Some? && Lower(p.status.value) == "sold"
  }

  /** `!p.is_active`. */
  predicate IsHidden(p: ProductRow) {
    !p.isActive
  }

  /** `p.paid === true`: null and false are both unpaid. */
  predicate IsPaid(p: ProductRow) {
    p.paid == Some(true)
  }

  // ---------------------------------------------------------------- tabs

  datatype Tab = All | Active | Sold | Hidden | Paid

  predicate InTab(p: ProductRow, tab: Tab) {
    match tab
    case Active => !IsSold(p) && !IsHidden(p)
    case Sold => IsSold(p)
    case Hidden => IsHidden(p)
    case Paid => IsPaid(p)
    case All => true
  }

  function TabTest(tab: Tab): ProductRow -> bool {
    (p: ProductRow) => InTab(p, tab)
  }

  /** `filteredProducts`: the loaded products the selected tab shows, in load order. */
  function FilteredProducts(products: seq<ProductRow>, tab: Tab): (r: seq<ProductRow>)
    ensures forall p :: p in r <==> p in products && InTab(p, tab)
    ensures IsSubsequence(r, products)
    ensures tab == All ==> r == products
  {
    FilterIsSubsequence(products, TabTest(tab));
    AllTabKeepsEverything(products);
    Filter(products, TabTest(tab))
  }

  lemma {:induction false} AllTabKeepsEverything(products: seq<ProductRow>)
    ensures Filter(products, TabTest(All)) == products
  {
    if products != [] {
      AllTabKeepsEverything(products[1..]);
      assert products == [products[0]] + products[1..];
    }
  }

  /** The "active" tab is exactly the products in neither the "sold" nor the "hidden" tab. */
  lemma ActiveTabComplement(p: ProductRow)
    ensures InTab(p, Active) <==> !InTab(p, Sold) && !InTab(p, Hidden)
  {
  }

  // ---------------------------------------------------------------- badges and buttons

  datatype Badge = PaidBadge(amount: Option<int>) | SoldBadge | HiddenBadge | ActiveBadge

  /** The badges of a product's card, left to right. */
  function Badges(p: ProductRow): (r: seq<Badge>)
    ensures r != []
    ensures SoldBadge in r <==> IsSold(p) && !IsPaid(p)
    ensures ActiveBadge in r <==> !IsSold(p) && !IsHidden(p) && !IsPaid(p)
    ensures HiddenBadge in r <==> IsHidden(p)
    ensures (exists a :: PaidBadge(a) in r) <==> IsPaid(p)
  {
    (if IsPaid(p) then [PaidBadge(p.paidAmount)] else []) +
    (if !IsPaid(p) && IsSold(p) then [SoldBadge] else []) +
    (if IsHidden(p) then [HiddenBadge] else []) +
    (if !IsSold(p) && !IsHidden(p) && !IsPaid(p) then [ActiveBadge] else [])
  }

  predicate OffersMarkPaid(p: ProductRow) {
    !IsPaid(p)
  }

  predicate OffersEditAmount(p: ProductRow) {
    IsPaid(p)
  }

  predicate OffersRepost(p: ProductRow) {
    IsSold(p) || IsHidden(p) || IsPaid(p)
  }

  /** "Repost" is offered exactly on the cards without the ACTIVE badge. */
  lemma RepostIffNotActiveBadge(p: ProductRow)
    ensures OffersRepost(p) <==> ActiveBadge !in Badges(p)
  {
  }

  /**
   * The ACTIVE badge is narrower than the "active" tab: a paid product that is
   * neither sold nor hidden is listed under "active" without the badge.
   */
  lemma ActiveBadgeIffActiveTabUnpaid(p: ProductRow)
    ensures ActiveBadge in Badges(p) <==> InTab(p, Active) && !IsPaid(p)
  {
  }

  // ---------------------------------------------------------------- row changes

  /** The columns `handleRepost` writes. */
  function Reposted(p: ProductRow): ProductRow {
    p.(status := None, isActive := true, paid := Some(false), paidAmount := None)
  }

  /** The columns `handleMarkPaid` writes; `now` is the `paid_at` timestamp. */
  function MarkedPaid(p: ProductRow, amount: int, now: string): ProductRow {
    p.(paid := Some(true), paidAmount := Some(amount), status := Some("sold"), isActive := false, paidAt := Some(now))
  }

  /** The column `handleEditAmount` writes. */
  function AmountEdited(p: ProductRow, amount: int): ProductRow {
    p.(paidAmount := Some(amount))
  }

  lemma LowerSold()
    ensures Lower("sold") == "sold"
  {
    assert Lower("sold")[0] == 's' && Lower("sold")[1] == 'o' && Lower("sold")[2] == 'l' && Lower("sold")[3] == 'd';
  }

  /** A product marked paid is listed under "sold", "hidden" and "paid" but not "active"; its card offers Repost and Edit Amount, not Mark Paid. */
  lemma MarkedPaidState(p: ProductRow, amount: int, now: string)
    ensures var q := MarkedPaid(p, amount, now);
      InTab(q, Sold) && InTab(q, Hidden) && InTab(q, Paid) && !InTab(q, Active) &&
      Badges(q) == [PaidBadge(Some(amount)), HiddenBadge] &&
      !OffersMarkPaid(q) && OffersRepost(q) && OffersEditAmount(q)
  {
    LowerSold();
  }

  /** A reposted product is listed under "active" only (besides "all") and shows the ACTIVE badge. */
  lemma RepostedState(p: ProductRow)
    ensures var q := Reposted(p);
      InTab(q, Active) && !InTab(q, Sold) && !InTab(q, Hidden) && !InTab(q, Paid) &&
      Badges(q) == [ActiveBadge] &&
      OffersMarkPaid(q) && !OffersRepost(q) && !OffersEditAmount(q)
  {
  }

  /** Reposting twice is reposting once. */
  lemma RepostIdempotent(p: ProductRow)
    ensures Reposted(Reposted(p)) == Reposted(p)
  {
  }

  /** Repost undoes mark-paid on every flag the list looks at. */
  lemma RepostUndoesMarkPaid(p: ProductRow, amount: int, now: string)
    requires !IsSold(p) && !IsHidden(p) && !IsPaid(p)
    ensures forall tab :: InTab(Reposted(MarkedPaid(p, amount, now)), tab) == InTab(p, tab)
  {
  }

  /** Editing the amount never moves a product between tabs or changes its buttons. */
  lemma AmountEditedKeepsTabs(p: ProductRow, amount: int)
    ensures forall tab :: InTab(AmountEdited(p, amount), tab) == InTab(p, tab)
    ensures OffersMarkPaid(AmountEdited(p, amount)) == OffersMarkPaid(p)
    ensures OffersRepost(AmountEdited(p, amount)) == OffersRepost(p)
  {
  }

  // ---------------------------------------------------------------- prompt answers

  /**
   * What a `prompt` answer gives as an amount: `None` when the dialog was cancelled
   * (`null`), left empty, or is not a number.
   */
  function PromptAmount(answer: Option<string>): (r: Option<int>)
    ensures answer.None? || answer == Some("") ==> r.None?
    ensures answer.Some? && answer.value != "" ==> r == ParseNumber(answer.value)
  {
    if answer.None? || !Truthy(answer.value) then None else ParseNumber(answer.value)
  }

  /** `String(current ?? "")`: the text the edit-amount prompt starts with. */
  function DefaultAnswer(current: Option<int>): string {
    match current
    case Some(n) => NumberText(n)
    case None => ""
  }

  /** A blank but non-empty answer such as " " is `Number(" ") == 0`, so it is accepted as the amount 0. */
  lemma BlankAnswerIsZero()
    ensures PromptAmount(Some(" ")) == Some(0)
  {
    assert TrimStart(" ") == "";
  }

  /**
   * Confirming the edit-amount prompt unchanged writes back the amount it showed:
   * the row is unchanged; with no amount shown the prompt's empty default is rejected.
   */
  lemma AcceptingDefaultKeepsAmount(p: ProductRow)
    ensures p.paidAmount.Some? ==> PromptAmount(Some(DefaultAnswer(p.paidAmount))) == p.paidAmount
    ensures p.paidAmount.Some? ==> AmountEdited(p, p.paidAmount.value) == p
    ensures p.paidAmount.None? ==> PromptAmount(Some(DefaultAnswer(p.paidAmount))).None?
  {
    if p.paidAmount.Some? {
      ParseNumberText(p.paidAmount.value);
    }
  }

  // ---------------------------------------------------------------- the page

  datatype HandlerOutcome = Cancelled | InvalidAmount | UpdateFailed | Updated

  /**
   * The page's state: `table` is the products table, ordered as the page's query
   * orders it (newest first); `products` is the list last loaded from it.
   */
  class AdminProductsPage {
    var table: seq<ProductRow>
    var products: seq<ProductRow>
    var filter: Tab

    constructor (table: seq<ProductRow>)
      ensures this.table == table && products == [] && filter == All
    {
      this.table := table;
      products := [];
      filter := All;
    }

    /** The list on screen. */
    function Shown(): seq<ProductRow>
      reads this
    {
      FilteredProducts(products, filter)
    }

    /** `loadProducts`. */
    method LoadProducts()
      modifies this
      ensures products == table && table == old(table) && filter == old(filter)
    {
      products := table;
    }

    /** Clicking a tab. */
    method SelectTab(tab: Tab)
      modifies this
      ensures filter == tab && products == old(products) && table == old(table)
    {
      filter := tab;
    }

    /** `handleRepost`: after confirmation, reset the row's flags and reload. */
    method HandleRepost(id: string, confirmed: bool, updateOk: bool) returns (outcome: HandlerOutcome)
      modifies this
      ensures filter == old(filter)
      ensures !confirmed ==> outcome == Cancelled
      ensures confirmed && !updateOk ==> outcome == UpdateFailed
      ensures outcome != Updated ==> table == old(table) && products == old(products)
      ensures outcome == Updated <==> confirmed && updateOk
      ensures outcome == Updated ==> table == UpdateWhereId(old(table), id, Reposted) && products == table
    {
      if !confirmed {
        return Cancelled;
      }
      if !updateOk {
        return UpdateFailed;
      }
      table := UpdateWhereId(table, id, Reposted);
      LoadProducts();
      outcome := Updated;
    }

    /** `handleMarkPaid`: ask for the amount, then mark the row paid, sold and hidden, and reload. */
    method HandleMarkPaid(id: string, answer: Option<string>, now: string, updateOk: bool) returns (outcome: HandlerOutcome)
      modifies this
      ensures filter == old(filter)
      ensures answer.None? || answer == Some("") ==> outcome == Cancelled
      ensures answer.Some? && answer.value != "" && ParseNumber(answer.value).None? ==> outcome == InvalidAmount
      ensures outcome != Updated ==> table == old(table) && products == old(products)
      ensures outcome == Updated <==> PromptAmount(answer).Some? && updateOk
      ensures outcome == Updated ==>
        table == UpdateWhereId(old(table), id, (p: ProductRow) => MarkedPaid(p, PromptAmount(answer).value, now)) &&
        products == table
    {
      if answer.None? || !Truthy(answer.value) {
        return Cancelled;
      }
      var amount := ParseNumber(answer.value);
      if amount.None? {
        return InvalidAmount;
      }
      if !updateOk {
        return UpdateFailed;
      }
      table := UpdateWhereId(table, id, (p: ProductRow) => MarkedPaid(p, amount.value, now));
      LoadProducts();
      outcome := Updated;
    }

    /** `handleEditAmount`: ask for a new amount, starting from the current one, and write only `paid_amount`. */
    method HandleEditAmount(id: string, current: Option<int>, answer: Option<string>, updateOk: bool)
      returns (outcome: HandlerOutcome)
      modifies this
      ensures filter == old(filter)
      ensures answer.None? || answer == Some("") ==> outcome == Cancelled
      ensures answer.Some? && answer.value != "" && ParseNumber(answer.value).None? ==> outcome == InvalidAmount
      ensures outcome != Updated ==> table == old(table) && products == old(products)
      ensures outcome == Updated <==> PromptAmount(answer).Some? && updateOk
      ensures outcome == Updated ==>
        table == UpdateWhereId(old(table), id, (p: ProductRow) => AmountEdited(p, PromptAmount(answer).value)) &&
        products == table
    {
      if answer.None? || !Truthy(answer.value) {
        return Cancelled;
      }
      var amount := ParseNumber(answer.value);
      if amount.None? {
        return InvalidAmount;
      }
      if !updateOk {
        return UpdateFailed;
      }
      table := UpdateWhereId(table, id, (p: ProductRow) => AmountEdited(p, amount.value));
      LoadProducts();
      outcome := Updated;
    }
  }
}
