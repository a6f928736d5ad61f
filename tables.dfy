/**
 * Rows of the hosted database's tables that several pages read and write. Each page
 * selects only some columns; a row here carries every column any page of the model
 * reads or writes. Nullable columns are `Option`s; money is whole RWF.
 */
module Tables {
  import opened Wrappers

  /** A row of the `products` table. */
  datatype ProductRow = ProductRow(
    id: string,
    name: string,
    description: string,
    price: int,
    imageUrl: string,
    images: Option<seq<string>>,
    categoryId: int,
    condition: string,
    status: Option<string>,
    isActive: bool,
    paid: Option<bool>,
    paidAmount: Option<int>,
    paidAt: Option<string>,
    purchasePrice: Option<int>,
    debt: Option<int>,
    isDebt: Option<bool>)

  /** A row of the `orders` table; `createdAt` is a timestamp, larger meaning later. */
  datatype OrderRow = OrderRow(
    id: string,
    userId: string,
    status: string,
    paymentStatus: string,
    totalAmount: int,
    createdAt: int)

  /** `x || 0` on a nullable number: null (and 0) read as 0. */
  function OrZero(x: Option<int>): int {
    x.GetOr(0)
  }

  /**
   * `update(change).eq("id", id)` on the products table: every row with that id
   * is changed, every other row is left as it was, and the order is kept.
   */
  function UpdateWhereId(rows: seq<ProductRow>, id: string, change: ProductRow -> ProductRow): (r: seq<ProductRow>)
    ensures |r| == |rows|
    ensures forall i :: 0 <= i < |rows| && rows[i].id != id ==> r[i] == rows[i]
    ensures forall i :: 0 <= i < |rows| && rows[i].id == id ==> r[i] == change(rows[i])
  {
    seq(|rows|, i requires 0 <= i < |rows| => if rows[i].id == id then change(rows[i]) else rows[i])
  }

  /** Ids are the table's primary key. */
  predicate UniqueIds(rows: seq<ProductRow>) {
    forall i, j :: 0 <= i < j < |rows| ==> rows[i].id != rows[j].id
  }

  /** With unique ids, updating by id changes the one row at that index. */
  lemma UpdateWhereIdAt(rows: seq<ProductRow>, k: nat, change: ProductRow -> ProductRow)
    requires UniqueIds(rows) && k < |rows|
    ensures UpdateWhereId(rows, rows[k].id, change) == rows[k := change(rows[k])]
  {
    var r := UpdateWhereId(rows, rows[k].id, change);
    forall i | 0 <= i < |rows|
      ensures r[i] == rows[k := change(rows[k])][i]
    {
      if i != k {
        assert i < k || k < i;
        assert rows[i].id != rows[k].id;
      }
    }
  }
}
