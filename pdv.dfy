/** The sale screen: its local state (discount percentage, search term, which dialog is
    open) and the commands that dispatch cart changes and hand the sale to the provider. */
module Pdv {
  import opened Wrappers
  import opened Records
  import opened Cart
  import App
  import Pricing
  import Text
  import Lists

  /** The screen's search: the lower-cased name contains the lower-cased term, or the
      barcode (when there is one) contains the term as typed. */
  predicate MatchesSearch(p: Product, term: string)
  {
    Text.Contains(Text.Lower(p.name), Text.Lower(term)) || (p.barcode.Some? && Text.Contains(p.barcode.value, term))
  }

  /** `products.filter(...)` of the sale screen. */
  function FilteredProducts(products: seq<Product>, term: string): seq<Product>
  {
    Lists.Filter(products, (p: Product) => MatchesSearch(p, term))
  }

  /** A product is listed iff it matches, and the listing keeps the catalogue order. */
  lemma FilteredProductsSpec(products: seq<Product>, term: string, p: Product)
    ensures p in FilteredProducts(products, term) <==> p in products && MatchesSearch(p, term)
    ensures Lists.IsSubsequence(FilteredProducts(products, term), products)
  {
    Lists.FilterMembership(products, (q: Product) => MatchesSearch(q, term), p);
    Lists.FilterIsSubsequence(products, (q: Product) => MatchesSearch(q, term));
  }

  /** The line `addToCart` dispatches: one unit, with the product's current stock as ceiling. */
  function CartLineFor(p: Product): (line: CartItem)
    ensures line.id == p.id && line.name == p.name && line.price == p.price
    ensures line.quantity == 1 && line.stock == p.stock
  {
    CartItem(p.id, p.name, p.price, 1, p.stock)
  }

  /** What `updateQuantity` did. `NoSuchLine` stands for the call on an id with no cart
      line, where reading `item.stock` throws before anything is dispatched. */
  datatype QuantityOutcome = NoSuchLine | StockExceeded | LineRemoved | QuantitySet

  class PdvScreen {
    const app: App.AppProvider
    var discount: real
    var searchTerm: string
    var showProductSelector: bool
    var showPaymentModal: bool

    constructor (app: App.AppProvider)
      ensures this.app == app
      ensures discount == 0.0 && searchTerm == "" && !showProductSelector && !showPaymentModal
    {
      this.app := app;
      discount := 0.0;
      searchTerm := "";
      showProductSelector := false;
      showPaymentModal := false;
    }

    /** `addToCart(product)`. */
    method AddToCart(p: Product)
      modifies app`state
      ensures app.state == Reduce(old(app.state), Cart.AddToCart(CartLineFor(p)))
    {
      app.Dispatch(Cart.AddToCart(CartLineFor(p)));
    }

    /** `updateQuantity(id, newQuantity)`: the ceiling check comes first; then a quantity of
        zero or less removes the line, and any other sets it. */
    method UpdateQuantity(id: int, newQuantity: int) returns (outcome: QuantityOutcome)
      modifies app`state
      ensures var line := FindLine(old(app.state.cart), id);
        && (line.None? ==> outcome == NoSuchLine)
        && (line.Some? && newQuantity > line.value.stock ==> outcome == StockExceeded)
        && (line.Some? && newQuantity <= line.value.stock && newQuantity <= 0 ==> outcome == LineRemoved)
        && (line.Some? && newQuantity <= line.value.stock && newQuantity > 0 ==> outcome == QuantitySet)
      ensures outcome in {NoSuchLine, StockExceeded} ==> app.state == old(app.state)
      ensures outcome == LineRemoved ==> app.state == Reduce(old(app.state), Cart.RemoveFromCart(id))
      ensures outcome == QuantitySet ==> app.state == Reduce(old(app.state), UpdateCartItem(id, newQuantity))
      ensures outcome == QuantitySet && DistinctIds(old(app.state.cart)) ==> QuantityOf(app.state.cart, id) == newQuantity
    {
      var line := FindLine(app.state.cart, id);
      if line.None? {
        return NoSuchLine;
      }
      if newQuantity > line.value.stock {
        return StockExceeded;
      }
      if newQuantity <= 0 {
        app.Dispatch(Cart.RemoveFromCart(id));
        outcome := LineRemoved;
      } else {
        ghost var cart := app.state.cart;
        app.Dispatch(UpdateCartItem(id, newQuantity));
        if DistinctIds(cart) {
          UpdateLineQuantity(cart, id, newQuantity, id);
        }
        outcome := QuantitySet;
      }
    }

    /** `removeFromCart(id)`. */
    method RemoveFromCart(id: int)
      modifies app`state
      ensures app.state == Reduce(old(app.state), Cart.RemoveFromCart(id))
    {
      app.Dispatch(Cart.RemoveFromCart(id));
    }

    /** `clearCart()`: empty the cart and reset the discount. */
    method ClearCart()
      modifies this`discount, app`state
      ensures app.state == old(app.state).(cart := []) && discount == 0.0
    {
      app.Dispatch(Cart.ClearCart);
      discount := 0.0;
    }

    /** The discount field's `onChange`: `Number(value) || 0`. The 0..100 range is only
        an attribute of the input and is not enforced here. */
    method SetDiscountInput(input: Option<real>)
      modifies this`discount
      ensures discount == Pricing.NumberOrZero(input)
    {
      discount := Pricing.NumberOrZero(input);
    }

    /** The "Finalizar Venda" button, disabled while the cart is empty. */
    method OpenPaymentModal()
      modifies this`showPaymentModal
      ensures showPaymentModal == (old(showPaymentModal) || app.state.cart != [])
    {
      if app.state.cart != [] {
        showPaymentModal := true;
      }
    }

    /** A click in the product selector: `onSelect(product)` is `addToCart`, then `onClose()`
        hides the selector. */
    method PickFromSelector(p: Product)
      modifies this`showProductSelector, app`state
      ensures app.state == Reduce(old(app.state), Cart.AddToCart(CartLineFor(p)))
      ensures !showProductSelector
    {
      AddToCart(p);
      showProductSelector := false;
    }

    /** `handlePayment(paymentData)`: build the sale from the cart at `date` and commit it.
        On success the dialog closes and the discount resets; on failure both are kept. */
    method HandlePayment(payment: Payment, date: int, failingWrite: Option<nat>) returns (ok: bool)
      requires app.db.Valid()
      modifies this`discount, this`showPaymentModal, app
      ensures app.db.Valid()
      ensures app.db.clients == old(app.db.clients) && app.db.exchanges == old(app.db.exchanges)
      ensures var sale := Pricing.BuildSale(date, old(app.state.cart), old(discount), payment);
        ok <==> failingWrite.None? || failingWrite.value > App.ExistingCount(old(app.db.products), sale.items)
      ensures var sale := Pricing.BuildSale(date, old(app.state.cart), old(discount), payment);
        var stored := Sale(old(app.db.sales.nextKey), sale, App.ClientSnapshot(old(app.db.clients), sale.clientId));
        ok ==> && app.db.sales == old(app.db.sales).Add(stored)
               && app.db.products == App.ApplyStock(old(app.db.products), sale.items)
               && app.state == old(app.state).(cart := [], lastCompletedSale := Some(stored))
      ensures ok ==> discount == 0.0 && !showPaymentModal
      ensures !ok ==> discount == old(discount) && showPaymentModal == old(showPaymentModal) && app.state == old(app.state)
      ensures !ok && failingWrite == Some(0) ==> app.db == old(app.db)
      ensures var sale := Pricing.BuildSale(date, old(app.state.cart), old(discount), payment);
        var stored := Sale(old(app.db.sales.nextKey), sale, App.ClientSnapshot(old(app.db.clients), sale.clientId));
        !ok && failingWrite != Some(0) ==>
          && app.db.sales == old(app.db.sales).Add(stored)
          && App.StockWritesDone(old(app.db.products), app.db.products, sale.items, failingWrite.value - 1)
    {
      var sale := Pricing.BuildSale(date, app.state.cart, discount, payment);
      var r := app.ProcessSale(sale, failingWrite);
      if r.Success? {
        showPaymentModal := false;
        discount := 0.0;
        ok := true;
      } else {
        ok := false;
      }
    }
  }
}
