/** The dashboard figures: counts, low-stock count, revenue, the five products with most
    stock and the five most recent sales (both lists sorted in place first). */
module Dashboard {
  import opened Records
  import Lists
  import Sorting

  /** The three counters: products, clients and sales. */
  datatype Counts = Counts(totalProducts: nat, totalClients: nat, totalSales: nat)

  function CountsOf(products: seq<Product>, clients: seq<Client>, sales: seq<Sale>): (c: Counts)
    ensures c.totalProducts == |products| && c.totalClients == |clients| && c.totalSales == |sales|
  {
    Counts(|products|, |clients|, |sales|)
  }

  predicate IsLowStock(p: Product)
  {
    p.stock <= p.minStock
  }

  /** `products.filter(p => p.stock <= p.minStock).length`. */
  function LowStockCount(products: seq<Product>): nat
  {
    |Lists.Filter(products, (p: Product) => IsLowStock(p))|
  }

  /** The alert `lowStockProducts > 0`. */
  predicate ShowLowStockAlert(products: seq<Product>)
  {
    LowStockCount(products) > 0
  }

  /** The low-stock count never exceeds the product count, and the alert shows exactly
      when some product is at or below its minimum. */
  lemma LowStockSpec(products: seq<Product>)
    ensures LowStockCount(products) <= |products|
    ensures ShowLowStockAlert(products) <==> exists i :: 0 <= i < |products| && IsLowStock(products[i])
  {
    Lists.FilterEmpty(products, (p: Product) => IsLowStock(p));
  }

  /** `sales.reduce((sum, sale) => sum + sale.total, 0)`, folded from the left. */
  function TotalRevenue(sales: seq<Sale>): real
  {
    if sales == [] then 0.0 else TotalRevenue(sales[..|sales| - 1]) + sales[|sales| - 1].data.total
  }

  /** Revenue is additive: the revenue of two lists of sales is the sum of their revenues. */
  lemma {:induction false} TotalRevenueAppend(a: seq<Sale>, b: seq<Sale>)
    ensures TotalRevenue(a + b) == TotalRevenue(a) + TotalRevenue(b)
  {
    if b == [] {
      assert a + b == a;
    } else {
      assert (a + b)[..|a + b| - 1] == a + b[..|b| - 1];
      TotalRevenueAppend(a, b[..|b| - 1]);
    }
  }

  /** Revenue does not depend on the order of the sales (the in-place sort cannot change it). */
  lemma {:induction false} TotalRevenuePermutation(a: seq<Sale>, b: seq<Sale>)
    requires multiset(a) == multiset(b)
    ensures TotalRevenue(a) == TotalRevenue(b)
    decreases |a|
  {
    if a != [] {
      var x := a[|a| - 1];
      assert x in multiset(b);
      var k :| 0 <= k < |b| && b[k] == x;
      var rest := b[..k] + b[k + 1..];
      assert b == b[..k] + [x] + b[k + 1..];
      assert b[..k] + [x] + b[k + 1..] == (b[..k] + [x]) + b[k + 1..];
      assert a == a[..|a| - 1] + [x];
      assert multiset(b) == multiset(b[..k]) + multiset([x]) + multiset(b[k + 1..]);
      assert multiset(a) == multiset(a[..|a| - 1]) + multiset([x]);
      assert multiset(rest) == multiset(b[..k]) + multiset(b[k + 1..]);
      assert multiset(rest) == multiset(b) - multiset([x]);
      assert multiset(a[..|a| - 1]) == multiset(a) - multiset([x]);
      TotalRevenuePermutation(a[..|a| - 1], rest);
      TotalRevenueAppend(b[..k] + [x], b[k + 1..]);
      TotalRevenueAppend(b[..k], [x]);
      TotalRevenueAppend(b[..k], b[k + 1..]);
      assert [x][..0] == [];
    } else {
      assert b == [];
    }
  }

  function StockKey(p: Product): int { p.stock }

  /** `products.sort((a, b) => b.stock - a.stock).slice(0, 5)`: the products array is
      reordered in place and its first five entries are shown. */
  method TopProducts(products: array<Product>) returns (top: seq<Product>)
    modifies products
    ensures multiset(products[..]) == old(multiset(products[..]))
    ensures Sorting.SortedDesc(products[..], StockKey)
    ensures |top| == (if products.Length < 5 then products.Length else 5)
    ensures top == products[..|top|]
    ensures forall i, j :: 0 <= i < |top| <= j < products.Length ==> products[j].stock <= top[i].stock
  {
    Sorting.SortDescending(products, StockKey);
    top := products[..if products.Length < 5 then products.Length else 5];
  }

  /** `sales.sort((a, b) => b.date - a.date).slice(0, 5)`. */
  method RecentSales(sales: array<Sale>) returns (recent: seq<Sale>)
    modifies sales
    ensures multiset(sales[..]) == old(multiset(sales[..]))
    ensures Sorting.SortedDesc(sales[..], SaleDate)
    ensures |recent| == (if sales.Length < 5 then sales.Length else 5)
    ensures recent == sales[..|recent|]
    ensures forall i, j :: 0 <= i < |recent| <= j < sales.Length ==> sales[j].data.date <= recent[i].data.date
  {
    Sorting.SortDescending(sales, SaleDate);
    recent := sales[..if sales.Length < 5 then sales.Length else 5];
  }
}
