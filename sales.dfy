/** The sales report: every sale, newest first, with its item count. */
module SalesReport {
  import opened Records
  import Sorting
  import Pricing

  /** `sale.items.reduce((acc, item) => acc + item.quantity, 0)`, folded from the left. */
  function ItemCount(items: seq<SaleItem>): int
  {
    if items == [] then 0 else ItemCount(items[..|items| - 1]) + items[|items| - 1].quantity
  }

  /** The item count is additive over concatenation (so it is 0 for a sale with no items). */
  lemma {:induction false} ItemCountAppend(a: seq<SaleItem>, b: seq<SaleItem>)
    ensures ItemCount(a + b) == ItemCount(a) + ItemCount(b)
  {
    if b == [] {
      assert a + b == a;
    } else {
      assert (a + b)[..|a + b| - 1] == a + b[..|b| - 1];
      ItemCountAppend(a, b[..|b| - 1]);
    }
  }

  /** The quantities of the cart lines, summed from the left. */
  function CartUnits(cart: seq<CartItem>): int
  {
    if cart == [] then 0 else CartUnits(cart[..|cart| - 1]) + cart[|cart| - 1].quantity
  }

  /** A sale built from a cart lists as many items as the cart held units. */
  lemma {:induction false} ItemCountOfCart(cart: seq<CartItem>)
    ensures ItemCount(Pricing.SaleItems(cart)) == CartUnits(cart)
  {
    if cart != [] {
      var n := |cart|;
      assert Pricing.SaleItems(cart)[..n - 1] == Pricing.SaleItems(cart[..n - 1]);
      ItemCountOfCart(cart[..n - 1]);
    }
  }

  /** "Nenhuma venda registrada." is shown exactly when there are no sales. */
  predicate ShowEmptyState(sales: seq<Sale>)
  {
    |sales| == 0
  }

  /** One row of the report table. */
  datatype Row = Row(id: int, date: int, items: int, total: real, paymentMethod: PaymentMethod)

  function RowOf(s: Sale): Row
  {
    Row(s.id, s.data.date, ItemCount(s.data.items), s.data.total, s.data.paymentMethod)
  }

  /** `sales.sort((a, b) => new Date(b.date) - new Date(a.date)).map(...)`: the shared sales
      array is reordered in place, newest first, and one row is produced per sale. */
  method Listing(sales: array<Sale>) returns (rows: seq<Row>)
    modifies sales
    ensures multiset(sales[..]) == old(multiset(sales[..]))
    ensures Sorting.SortedDesc(sales[..], SaleDate)
    ensures |rows| == sales.Length
    ensures forall i :: 0 <= i < |rows| ==> rows[i] == RowOf(sales[i])
    ensures forall i, j :: 0 <= i < j < |rows| ==> rows[i].date >= rows[j].date
  {
    Sorting.SortDescending(sales, SaleDate);
    rows := seq(sales.Length, i reads sales requires 0 <= i < sales.Length => RowOf(sales[i]));
  }
}
