/** Checkout arithmetic of the sale screen: subtotal, discount amount and total, the
    numeric input coercion, and the sale record built from the cart. */
module Pricing {
  import opened Wrappers
  import opened Records

  /** `item.price * item.quantity`. */
  function LineTotal(item: CartItem): real
  {
    item.price * item.quantity as real
  }

  /** `cart.reduce((sum, item) => sum + item.price * item.quantity, 0)`, folded from the left. */
  function Subtotal(cart: seq<CartItem>): real
  {
    if cart == [] then 0.0 else Subtotal(cart[..|cart| - 1]) + LineTotal(cart[|cart| - 1])
  }

  /** `(subtotal * discount) / 100`, the discount being a percentage. */
  function DiscountAmount(subtotal: real, discount: real): real
  {
    subtotal * discount / 100.0
  }

  /** `subtotal - discountAmount`. */
  function Total(subtotal: real, discount: real): real
  {
    subtotal - DiscountAmount(subtotal, discount)
  }

  /** `Number(value) || 0`: `None` is an input that is not a number (NaN), which becomes 0
      like the number 0 itself; any other number is kept. */
  function NumberOrZero(input: Option<real>): (r: real)
    ensures input.None? ==> r == 0.0
    ensures input.Some? ==> r == input.value
  {
    if input.Some? && input.value != 0.0 then input.value else 0.0
  }

  /** `cart.map(item => ({productId, name, quantity, price, total: price * quantity}))`. */
  function SaleItems(cart: seq<CartItem>): (items: seq<SaleItem>)
    ensures |items| == |cart|
    ensures forall i :: 0 <= i < |cart| ==>
      items[i] == SaleItem(cart[i].id, cart[i].name, cart[i].quantity, cart[i].price, LineTotal(cart[i]))
  {
    seq(|cart|, i requires 0 <= i < |cart| =>
      SaleItem(cart[i].id, cart[i].name, cart[i].quantity, cart[i].price, LineTotal(cart[i])))
  }

  /** The sum of the line totals of a sale, folded from the left. */
  function SumItemTotals(items: seq<SaleItem>): real
  {
    if items == [] then 0.0 else SumItemTotals(items[..|items| - 1]) + items[|items| - 1].total
  }

  /** `paymentData.clientId || null`. */
  function ClientIdOrNull(id: Option<int>): (r: Option<int>)
    ensures r.Some? <==> IsTruthyId(id)
    ensures r.Some? ==> r == id
  {
    if IsTruthyId(id) then id else None
  }

  /** The sale record `handlePayment` builds from the cart, the discount percentage and
      the payment record. */
  function BuildSale(date: int, cart: seq<CartItem>, discount: real, payment: Payment): (sale: SaleData)
    ensures sale.date == date && sale.items == SaleItems(cart)
    ensures sale.subtotal == SumItemTotals(sale.items) && sale.subtotal == Subtotal(cart)
    ensures sale.discount == DiscountAmount(Subtotal(cart), discount)
    ensures sale.total == sale.subtotal - sale.discount && sale.total == Total(Subtotal(cart), discount)
    ensures sale.paymentMethod == payment.paymentMethod && sale.paymentDetails == payment
    ensures sale.clientId == ClientIdOrNull(payment.clientId)
  {
    var subtotal := Subtotal(cart);
    SubtotalIsSumOfLineTotals(cart);
    SaleData(date, SaleItems(cart), subtotal, DiscountAmount(subtotal, discount), Total(subtotal, discount),
             payment.paymentMethod, payment, ClientIdOrNull(payment.clientId))
  }

  /** The subtotal equals the sum of the line totals of the sale items built from the cart. */
  lemma {:induction false} SubtotalIsSumOfLineTotals(cart: seq<CartItem>)
    ensures SumItemTotals(SaleItems(cart)) == Subtotal(cart)
  {
    if cart != [] {
      var n := |cart|;
      assert SaleItems(cart)[..n - 1] == SaleItems(cart[..n - 1]);
      SubtotalIsSumOfLineTotals(cart[..n - 1]);
    }
  }

  /** Appending a line adds its line total: the fold of `reduce` seen one step at a time. */
  lemma SubtotalAppend(cart: seq<CartItem>, item: CartItem)
    ensures Subtotal(cart + [item]) == Subtotal(cart) + LineTotal(item)
  {
    assert (cart + [item])[..|cart|] == cart;
  }

  /** With non-negative prices and quantities the subtotal is non-negative. */
  lemma {:induction false} SubtotalNonNegative(cart: seq<CartItem>)
    requires forall i :: 0 <= i < |cart| ==> cart[i].price >= 0.0 && cart[i].quantity >= 0
    ensures Subtotal(cart) >= 0.0
  {
    if cart != [] {
      SubtotalNonNegative(cart[..|cart| - 1]);
      var last := cart[|cart| - 1];
      assert LineTotal(last) >= 0.0 by {
        assert last.price >= 0.0 && last.quantity as real >= 0.0;
      }
    }
  }

  /** For a percentage in the range the input offers, the discount is between zero and
      the subtotal, and the total is the subtotal scaled by the remaining percentage. */
  lemma DiscountWithinRange(subtotal: real, discount: real)
    requires subtotal >= 0.0 && 0.0 <= discount <= 100.0
    ensures 0.0 <= DiscountAmount(subtotal, discount) <= subtotal
    ensures 0.0 <= Total(subtotal, discount) <= subtotal
    ensures Total(subtotal, discount) == subtotal * (100.0 - discount) / 100.0
  {
    assert subtotal * discount <= subtotal * 100.0;
  }

  /** The worked example: two units at 100.00 with a 10% discount. */
  lemma WorkedExample()
    ensures var cart := [CartItem(1, "p", 100.0, 2, 5)];
            Subtotal(cart) == 200.0 && DiscountAmount(Subtotal(cart), 10.0) == 20.0
            && Total(Subtotal(cart), 10.0) == 180.0
  {
    var cart := [CartItem(1, "p", 100.0, 2, 5)];
    assert cart[..0] == [];
  }
}
