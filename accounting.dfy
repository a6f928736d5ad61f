/**
 * The accounting page: the paid products, a purchase price per product, debt
 * payments ("ideni") that raise the paid amount and recompute the outstanding
 * debt, and the page totals.
 */
module Accounting {
  import opened Wrappers
  import opened Text
  import opened Seqs
  import opened Tables

  function Max(a: int, b: int): int {
    if a >= b then a else b
  }

  // ---------------------------------------------------------------- which rows

  function PaidTest(): ProductRow -> bool {
    (p: ProductRow) => p.paid == Some(true)
  }

  /** `.eq("paid", true)`: the rows the page lists, in the table's order. */
  function PaidRows(table: seq<ProductRow>): (r: seq<ProductRow>)
    ensures forall p :: p in r <==> p in table && p.paid == Some(true)
    ensures IsSubsequence(r, table)
    ensures forall p :: multiset(r)[p] == if p.paid == Some(true) then multiset(table)[p] else 0
  {
    FilterIsSubsequence(table, PaidTest());
    FilterMultisets(table, PaidTest());
    Filter(table, PaidTest())
  }

  // ---------------------------------------------------------------- totals

  function PaidAmountOrZero(p: ProductRow): int {
    OrZero(p.paidAmount)
  }

  function PurchasePriceOrZero(p: ProductRow): int {
    OrZero(p.purchasePrice)
  }

  function DebtOrZero(p: ProductRow): int {
    OrZero(p.debt)
  }

  function MarginOf(p: ProductRow): int {
    OrZero(p.paidAmount) - OrZero(p.purchasePrice)
  }

  /** `totalCashReceived`. */
  function CashReceived(rows: seq<ProductRow>): int {
    Sum(rows, PaidAmountOrZero)
  }

  /** `totalPurchases`. */
  function Purchases(rows: seq<ProductRow>): int {
    Sum(rows, PurchasePriceOrZero)
  }

  /** `totalDebt`. */
  function OutstandingDebt(rows: seq<ProductRow>): int {
    Sum(rows, DebtOrZero)
  }

  /** `profit`: cash received minus purchases. */
  function Profit(rows: seq<ProductRow>): int {
    CashReceived(rows) - Purchases(rows)
  }

  /** The profit is the sum of each row's own margin (paid amount minus purchase price, nulls as 0). */
  lemma ProfitIsSumOfMargins(rows: seq<ProductRow>)
    ensures Profit(rows) == Sum(rows, MarginOf)
  {
    SumDifference(rows, PaidAmountOrZero, PurchasePriceOrZero, MarginOf);
  }

  /** The totals of a list are the totals of its parts. */
  lemma TotalsAppend(a: seq<ProductRow>, b: seq<ProductRow>)
    ensures CashReceived(a + b) == CashReceived(a) + CashReceived(b)
    ensures Purchases(a + b) == Purchases(a) + Purchases(b)
    ensures OutstandingDebt(a + b) == OutstandingDebt(a) + OutstandingDebt(b)
    ensures Profit(a + b) == Profit(a) + Profit(b)
  {
    SumAppend(a, b, PaidAmountOrZero);
    SumAppend(a, b, PurchasePriceOrZero);
    SumAppend(a, b, DebtOrZero);
  }

  /** With no negative debts recorded, the outstanding total is not negative. */
  lemma OutstandingDebtNonNegative(rows: seq<ProductRow>)
    requires forall p :: p in rows ==> OrZero(p.debt) >= 0
    ensures OutstandingDebt(rows) >= 0
  {
    SumNonNegative(rows, DebtOrZero);
  }

  // ---------------------------------------------------------------- debt payments

  /** The three columns a debt payment writes. */
  datatype Payment = Payment(paidAmount: int, debt: int, isDebt: bool)

  /**
   * `payDebt`'s arithmetic: `None` for a non-numeric or non-positive amount, else
   * the new paid amount, the new debt and the new `is_debt` flag.
   */
  function DebtPayment(p: ProductRow, amountText: string): (r: Option<Payment>)
    ensures r.None? <==> ParseNumber(amountText).None? || ParseNumber(amountText).value <= 0
    ensures r.Some? ==> r.value.paidAmount == OrZero(p.paidAmount) + ParseNumber(amountText).value
    ensures r.Some? ==> r.value.paidAmount > OrZero(p.paidAmount)
    ensures r.Some? ==> r.value.debt >= 0 && r.value.debt >= p.price - r.value.paidAmount
    ensures r.Some? ==> (r.value.debt == 0 <==> r.value.paidAmount >= p.price)
    ensures r.Some? ==> (r.value.debt > 0 ==> r.value.paidAmount + r.value.debt == p.price)
    ensures r.Some? ==> (r.value.isDebt <==> r.value.debt > 0)
  {
    var pay := ParseNumber(amountText);
    if pay.None? || pay.value <= 0 then None
    else
      var newPaid := OrZero(p.paidAmount) + pay.value;
      var newDebt := Max(p.price - newPaid, 0);
      Some(Payment(newPaid, newDebt, newDebt > 0))
  }

  /** The row after the payment is written: only `paid_amount`, `debt` and `is_debt` change. */
  function WithPayment(p: ProductRow, pay: Payment): ProductRow {
    p.(paidAmount := Some(pay.paidAmount), debt := Some(pay.debt), isDebt := Some(pay.isDebt))
  }

  /** The "Pay" control is rendered only for rows with a positive debt (`p.debt && p.debt > 0`). */
  predicate ShowsPayControl(p: ProductRow) {
    p.debt.Some? && p.debt.value > 0
  }

  /** After a payment the row offers "Pay" exactly when its `is_debt` flag is set, and not at all once the price is covered. */
  lemma PaymentControlMatchesFlag(p: ProductRow, amountText: string)
    requires DebtPayment(p, amountText).Some?
    ensures var q := WithPayment(p, DebtPayment(p, amountText).value);
      (ShowsPayControl(q) <==> q.isDebt == Some(true)) &&
      (OrZero(q.paidAmount) >= p.price ==> !ShowsPayControl(q) && q.debt == Some(0))
  {
  }

  /** Two payments in a row add up: paying a then b is paying a + b (for positive a and b). */
  lemma PaymentsAccumulate(p: ProductRow, a: int, b: int)
    requires a > 0 && b > 0
    ensures DebtPayment(p, NumberText(a)).Some? &&
      var q := WithPayment(p, DebtPayment(p, NumberText(a)).value);
      DebtPayment(q, NumberText(b)) == DebtPayment(p, NumberText(a + b))
  {
    ParseNumberText(a);
    ParseNumberText(b);
    ParseNumberText(a + b);
    var first := DebtPayment(p, NumberText(a)).value;
    var q := WithPayment(p, first);
    assert OrZero(q.paidAmount) == OrZero(p.paidAmount) + a;
    var twice, once := DebtPayment(q, NumberText(b)).value, DebtPayment(p, NumberText(a + b)).value;
    assert twice.paidAmount == once.paidAmount;
    assert twice.debt == once.debt;
  }

  /**
   * With unique ids and a row read as it is stored, a payment of `pay` raises the
   * cash total by exactly `pay`.
   */
  lemma PaymentRaisesCash(rows: seq<ProductRow>, k: nat, amountText: string)
    requires UniqueIds(rows) && k < |rows|
    requires DebtPayment(rows[k], amountText).Some?
    ensures var pay := DebtPayment(rows[k], amountText).value;
      CashReceived(UpdateWhereId(rows, rows[k].id, (q: ProductRow) => WithPayment(q, pay))) ==
      CashReceived(rows) + ParseNumber(amountText).value
  {
    var pay := DebtPayment(rows[k], amountText).value;
    var change := (q: ProductRow) => WithPayment(q, pay);
    UpdateWhereIdAt(rows, k, change);
    SumUpdate(rows, k, change(rows[k]), PaidAmountOrZero);
  }

  // ---------------------------------------------------------------- the page

  datatype SaveOutcome = InvalidInput | SaveFailed | Saved

  /**
   * The page's state: `table` is the products table in the page's query order
   * (latest payment first); `rows` the list last loaded; `savingId` the row whose
   * button is disabled while a write is in flight.
   */
  class AccountingPage {
    var table: seq<ProductRow>
    var rows: seq<ProductRow>
    var loading: bool
    var savingId: Option<string>

    constructor (table: seq<ProductRow>)
      ensures this.table == table && rows == [] && loading && savingId == None
    {
      this.table := table;
      rows := [];
      loading := true;
      savingId := None;
    }

    /** `loadPaidProducts`: the paid rows, or none when the query fails (`data || []`). */
    method LoadPaidProducts(queryOk: bool)
      modifies this
      ensures rows == (if queryOk then PaidRows(table) else []) && !loading
      ensures table == old(table) && savingId == old(savingId)
    {
      rows := if queryOk then PaidRows(table) else [];
      loading := false;
    }

    /** `savePurchasePrice`: reject NaN, else write `purchase_price` and reload. */
    method SavePurchasePrice(id: string, value: string, updateOk: bool, reloadOk: bool) returns (outcome: SaveOutcome)
      modifies this
      ensures ParseNumber(value).None? <==> outcome == InvalidInput
      ensures outcome == InvalidInput ==> table == old(table) && rows == old(rows) && savingId == old(savingId) && loading == old(loading)
      ensures outcome != InvalidInput ==> savingId == None
      ensures outcome == SaveFailed ==> !updateOk && table == old(table) && rows == old(rows)
      ensures outcome == Saved ==>
        updateOk &&
        table == UpdateWhereId(old(table), id, (p: ProductRow) => p.(purchasePrice := ParseNumber(value))) &&
        rows == (if reloadOk then PaidRows(table) else [])
    {
      var price := ParseNumber(value);
      if price.None? {
        return InvalidInput;
      }
      savingId := Some(id);
      if updateOk {
        table := UpdateWhereId(table, id, (p: ProductRow) => p.(purchasePrice := price));
        LoadPaidProducts(reloadOk);
        outcome := Saved;
      } else {
        outcome := SaveFailed;
      }
      savingId := None;
    }

    /** `payDebt`: reject a bad amount, else write the payment computed from the row as displayed, and reload. */
    method PayDebt(product: ProductRow, amount: string, updateOk: bool, reloadOk: bool) returns (outcome: SaveOutcome)
      modifies this
      ensures DebtPayment(product, amount).None? <==> outcome == InvalidInput
      ensures outcome == InvalidInput ==> table == old(table) && rows == old(rows) && savingId == old(savingId) && loading == old(loading)
      ensures outcome != InvalidInput ==> savingId == None
      ensures outcome == SaveFailed ==> !updateOk && table == old(table) && rows == old(rows)
      ensures outcome == Saved ==>
        updateOk &&
        table == UpdateWhereId(old(table), product.id, (p: ProductRow) => WithPayment(p, DebtPayment(product, amount).value)) &&
        rows == (if reloadOk then PaidRows(table) else [])
    {
      var payment := DebtPayment(product, amount);
      if payment.None? {
        return InvalidInput;
      }
      savingId := Some(product.id);
      if updateOk {
        table := UpdateWhereId(table, product.id, (p: ProductRow) => WithPayment(p, payment.value));
        LoadPaidProducts(reloadOk);
        outcome := Saved;
      } else {
        outcome := SaveFailed;
      }
      savingId := None;
    }
  }

  /** An empty purchase-price box is `Number("") == 0`, so saving it writes 0 rather than being rejected. */
  lemma EmptyPurchasePriceIsZero()
    ensures ParseNumber("") == Some(0)
  {
  }
}
