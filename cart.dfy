/** The application reducer: the single state record, the actions dispatched to it,
    and the cart operations it performs on a list of lines keyed by product id. */
module Cart {
  import opened Wrappers
  import opened Records
  import Lists

  /** The application state held by the provider. Settings values are kept as strings. */
  datatype AppState = AppState(
    darkMode: bool,
    products: seq<Product>,
    clients: seq<Client>,
    sales: seq<Sale>,
    exchanges: seq<Exchange>,
    settings: map<string, string>,
    cart: seq<CartItem>,
    loading: bool,
    searchTerm: string,
    lastCompletedSale: Option<Sale>)

  const InitialState: AppState := AppState(false, [], [], [], [], map[], [], true, "", None)

  /** The actions the reducer understands; `Unknown` is any other action type. */
  datatype Action =
    | SetDarkMode(dark: bool)
    | SetProducts(productList: seq<Product>)
    | SetClients(clientList: seq<Client>)
    | SetSales(saleList: seq<Sale>)
    | SetExchanges(exchangeList: seq<Exchange>)
    | SetSettings(settingsMap: map<string, string>)
    | SetCart(lines: seq<CartItem>)
    | AddToCart(item: CartItem)
    | RemoveFromCart(removeId: int)
    | UpdateCartItem(updateId: int, newQuantity: int)
    | ClearCart
    | SetLoading(isLoading: bool)
    | SetSearchTerm(term: string)
    | SetLastCompletedSale(completed: Option<Sale>)
    | Unknown(tag: string)

  /** The fields of the state, plus `NoField` for an action that touches none. */
  datatype Field =
    | DarkModeField | ProductsField | ClientsField | SalesField | ExchangesField | SettingsField
    | CartField | LoadingField | SearchTermField | LastCompletedSaleField | NoField

  /** The one state field an action may change. */
  function FieldOf(a: Action): Field
  {
    match a
    case SetDarkMode(_) => DarkModeField
    case SetProducts(_) => ProductsField
    case SetClients(_) => ClientsField
    case SetSales(_) => SalesField
    case SetExchanges(_) => ExchangesField
    case SetSettings(_) => SettingsField
    case SetCart(_) => CartField
    case AddToCart(_) => CartField
    case RemoveFromCart(_) => CartField
    case UpdateCartItem(_, _) => CartField
    case ClearCart => CartField
    case SetLoading(_) => LoadingField
    case SetSearchTerm(_) => SearchTermField
    case SetLastCompletedSale(_) => LastCompletedSaleField
    case Unknown(_) => NoField
  }

  /** `s` and `t` agree on every field except possibly `f`. */
  predicate AgreeExcept(s: AppState, t: AppState, f: Field)
  {
    && (f != DarkModeField ==> s.darkMode == t.darkMode)
    && (f != ProductsField ==> s.products == t.products)
    && (f != ClientsField ==> s.clients == t.clients)
    && (f != SalesField ==> s.sales == t.sales)
    && (f != ExchangesField ==> s.exchanges == t.exchanges)
    && (f != SettingsField ==> s.settings == t.settings)
    && (f != CartField ==> s.cart == t.cart)
    && (f != LoadingField ==> s.loading == t.loading)
    && (f != SearchTermField ==> s.searchTerm == t.searchTerm)
    && (f != LastCompletedSaleField ==> s.lastCompletedSale == t.lastCompletedSale)
  }

  /** Some line of the cart has product id `id`. */
  predicate HasLine(cart: seq<CartItem>, id: int)
  {
    exists i :: 0 <= i < |cart| && cart[i].id == id
  }

  /** Line `i` is the first line of the cart with product id `id`. */
  predicate FirstWith(cart: seq<CartItem>, id: int, i: int)
  {
    0 <= i < |cart| && cart[i].id == id && forall j :: 0 <= j < i ==> cart[j].id != id
  }

  /** `cart.find(item => item.id === id)`: the first line with that id. */
  function FindLine(cart: seq<CartItem>, id: int): (r: Option<CartItem>)
    ensures r.Some? <==> HasLine(cart, id)
    ensures r.Some? ==> r.value in cart && r.value.id == id
    ensures r.Some? ==> exists i :: FirstWith(cart, id, i) && cart[i] == r.value
  {
    if cart == [] then None
    else if cart[0].id == id then (assert FirstWith(cart, id, 0); Some(cart[0]))
    else
      var r := FindLine(cart[1..], id);
      assert HasLine(cart, id) ==> cart[0].id == id || HasLine(cart[1..], id) by {
        if HasLine(cart, id) {
          var i :| 0 <= i < |cart| && cart[i].id == id;
          if i > 0 { assert cart[1..][i - 1].id == id; }
        }
      }
      assert r.Some? ==> exists i :: FirstWith(cart, id, i) && cart[i] == r.value by {
        if r.Some? {
          var k :| FirstWith(cart[1..], id, k) && cart[1..][k] == r.value;
          assert FirstWith(cart, id, k + 1);
        }
      }
      r
  }

  /** No two lines share a product id. */
  predicate DistinctIds(cart: seq<CartItem>)
  {
    forall i, j :: 0 <= i < j < |cart| ==> cart[i].id != cart[j].id
  }

  /** The product ids of the lines, in cart order. */
  function Ids(cart: seq<CartItem>): (r: seq<int>)
    ensures |r| == |cart| && forall i :: 0 <= i < |cart| ==> r[i] == cart[i].id
  {
    seq(|cart|, i requires 0 <= i < |cart| => cart[i].id)
  }

  /** The total quantity the cart holds for product `id`. */
  function QuantityOf(cart: seq<CartItem>, id: int): int
  {
    if cart == [] then 0
    else (if cart[0].id == id then cart[0].quantity else 0) + QuantityOf(cart[1..], id)
  }

  /** The `map` of ADD_TO_CART for an id already present: every line with that id
      gets the payload quantity added; name, price and stock stay those of the line. */
  function MergeLine(cart: seq<CartItem>, item: CartItem): (r: seq<CartItem>)
    ensures |r| == |cart|
    ensures forall i :: 0 <= i < |cart| ==>
      r[i] == if cart[i].id == item.id then cart[i].(quantity := cart[i].quantity + item.quantity) else cart[i]
  {
    seq(|cart|, i requires 0 <= i < |cart| =>
      if cart[i].id == item.id then cart[i].(quantity := cart[i].quantity + item.quantity) else cart[i])
  }

  /** ADD_TO_CART: merge into the line with the same id, or append the payload. */
  function AddLine(cart: seq<CartItem>, item: CartItem): (r: seq<CartItem>)
    ensures HasLine(cart, item.id) ==> |r| == |cart| && forall i :: 0 <= i < |cart| ==>
      r[i] == if cart[i].id == item.id then cart[i].(quantity := cart[i].quantity + item.quantity) else cart[i]
    ensures !HasLine(cart, item.id) ==> r == cart + [item]
  {
    if FindLine(cart, item.id).Some? then MergeLine(cart, item) else cart + [item]
  }

  /** REMOVE_FROM_CART: `cart.filter(item => item.id !== id)`. */
  function RemoveLines(cart: seq<CartItem>, id: int): seq<CartItem>
  {
    Lists.Filter(cart, (line: CartItem) => line.id != id)
  }

  /** UPDATE_CART_ITEM with payload `{id, quantity}`: the matching lines take the new quantity. */
  function UpdateLine(cart: seq<CartItem>, id: int, quantity: int): (r: seq<CartItem>)
    ensures |r| == |cart|
    ensures forall i :: 0 <= i < |cart| ==>
      r[i] == if cart[i].id == id then cart[i].(quantity := quantity) else cart[i]
  {
    seq(|cart|, i requires 0 <= i < |cart| =>
      if cart[i].id == id then cart[i].(quantity := quantity) else cart[i])
  }

  /** `appReducer(state, action)`. */
  function Reduce(state: AppState, action: Action): AppState
  {
    match action
    case SetDarkMode(d) => state.(darkMode := d)
    case SetProducts(ps) => state.(products := ps)
    case SetClients(cs) => state.(clients := cs)
    case SetSales(ss) => state.(sales := ss)
    case SetExchanges(es) => state.(exchanges := es)
    case SetSettings(m) => state.(settings := m)
    case SetCart(c) => state.(cart := c)
    case AddToCart(item) => state.(cart := AddLine(state.cart, item))
    case RemoveFromCart(id) => state.(cart := RemoveLines(state.cart, id))
    case UpdateCartItem(id, q) => state.(cart := UpdateLine(state.cart, id, q))
    case ClearCart => state.(cart := [])
    case SetLoading(b) => state.(loading := b)
    case SetSearchTerm(t) => state.(searchTerm := t)
    case SetLastCompletedSale(s) => state.(lastCompletedSale := s)
    case Unknown(_) => state
  }

  /** Every action replaces at most its own field of the state; an unknown action returns
      the state unchanged, and CLEAR_CART leaves an empty cart. */
  lemma ReduceChangesOnlyItsField(state: AppState, action: Action)
    ensures AgreeExcept(state, Reduce(state, action), FieldOf(action))
    ensures action.Unknown? ==> Reduce(state, action) == state
    ensures action.ClearCart? ==> Reduce(state, action).cart == []
  {
  }

  // ---- ADD_TO_CART ----

  /** Merging for an id no line has changes nothing. */
  lemma MergeAbsent(cart: seq<CartItem>, item: CartItem)
    requires !HasLine(cart, item.id)
    ensures MergeLine(cart, item) == cart
  {
  }

  /** ADD_TO_CART keeps the cart order: on a merge the ids stay as they were, otherwise
      the new id goes at the end. */
  lemma AddLineIds(cart: seq<CartItem>, item: CartItem)
    ensures Ids(AddLine(cart, item)) == if HasLine(cart, item.id) then Ids(cart) else Ids(cart) + [item.id]
  {
  }

  /** ADD_TO_CART keeps product ids pairwise distinct. */
  lemma AddLineDistinct(cart: seq<CartItem>, item: CartItem)
    requires DistinctIds(cart)
    ensures DistinctIds(AddLine(cart, item))
  {
    var r := AddLine(cart, item);
    if !HasLine(cart, item.id) {
      forall i, j | 0 <= i < j < |r| ensures r[i].id != r[j].id {
        if j == |cart| {
          assert cart[i].id != item.id;
        }
      }
    }
  }

  /** On a merge, the existing line keeps its name, price and stock snapshot; only its
      quantity grows, by exactly the payload quantity. */
  lemma AddLineMergeKeepsSnapshot(cart: seq<CartItem>, item: CartItem, i: int)
    requires HasLine(cart, item.id) && 0 <= i < |cart| && cart[i].id == item.id
    ensures AddLine(cart, item)[i] == cart[i].(quantity := cart[i].quantity + item.quantity)
  {
  }

  /** ADD_TO_CART raises the quantity held for the payload id by the payload quantity and
      leaves the quantity of every other product as it was. */
  lemma {:induction false} AddLineQuantity(cart: seq<CartItem>, item: CartItem, id: int)
    requires DistinctIds(cart)
    ensures QuantityOf(AddLine(cart, item), id) == QuantityOf(cart, id) + (if id == item.id then item.quantity else 0)
  {
    if HasLine(cart, item.id) {
      MergeQuantity(cart, item, id);
    } else {
      QuantityOfAppend(cart, [item], id);
      assert [item][1..] == [];
    }
  }

  lemma {:induction false} MergeQuantity(cart: seq<CartItem>, item: CartItem, id: int)
    requires DistinctIds(cart) && HasLine(cart, item.id)
    ensures QuantityOf(MergeLine(cart, item), id) == QuantityOf(cart, id) + (if id == item.id then item.quantity else 0)
  {
    var r := MergeLine(cart, item);
    assert r[1..] == MergeLine(cart[1..], item);
    if cart[0].id == item.id {
      forall i | 0 <= i < |cart[1..]| ensures cart[1..][i].id != item.id {
        assert cart[1..][i] == cart[i + 1];
      }
      MergeAbsent(cart[1..], item);
    } else {
      assert HasLine(cart[1..], item.id) by {
        var i :| 0 <= i < |cart| && cart[i].id == item.id;
        assert cart[1..][i - 1].id == item.id;
      }
      MergeQuantity(cart[1..], item, id);
    }
  }

  lemma {:induction false} QuantityOfAppend(a: seq<CartItem>, b: seq<CartItem>, id: int)
    ensures QuantityOf(a + b, id) == QuantityOf(a, id) + QuantityOf(b, id)
  {
    if a == [] {
      assert a + b == b;
    } else {
      assert (a + b)[1..] == a[1..] + b;
      QuantityOfAppend(a[1..], b, id);
    }
  }

  /** Adding the same product twice gives one line holding both quantities, never two lines. */
  lemma AddTwice(cart: seq<CartItem>, first: CartItem, second: CartItem)
    requires DistinctIds(cart) && first.id == second.id
    ensures |AddLine(AddLine(cart, first), second)| == |AddLine(cart, first)|
    ensures QuantityOf(AddLine(AddLine(cart, first), second), first.id)
         == QuantityOf(cart, first.id) + first.quantity + second.quantity
  {
    var once := AddLine(cart, first);
    AddLineDistinct(cart, first);
    AddLineQuantity(cart, first, first.id);
    AddLineQuantity(once, second, first.id);
    if HasLine(cart, first.id) {
      var i :| 0 <= i < |cart| && cart[i].id == first.id;
      assert once[i].id == first.id;
    } else {
      assert once[|cart|].id == first.id;
    }
  }

  // ---- REMOVE_FROM_CART ----

  /** REMOVE_FROM_CART drops exactly the lines with that id and keeps the rest in order. */
  lemma RemoveLinesSpec(cart: seq<CartItem>, id: int)
    ensures !HasLine(RemoveLines(cart, id), id)
    ensures forall line :: line in RemoveLines(cart, id) <==> line in cart && line.id != id
    ensures Lists.IsSubsequence(RemoveLines(cart, id), cart)
  {
    var keep := (line: CartItem) => line.id != id;
    forall line ensures line in RemoveLines(cart, id) <==> line in cart && line.id != id {
      Lists.FilterMembership(cart, keep, line);
    }
    Lists.FilterIsSubsequence(cart, keep);
    var r := RemoveLines(cart, id);
    forall i | 0 <= i < |r| ensures r[i].id != id {
      assert r[i] in r;
    }
  }

  /** REMOVE_FROM_CART keeps product ids pairwise distinct. */
  lemma {:induction false} RemoveLinesDistinct(cart: seq<CartItem>, id: int)
    requires DistinctIds(cart)
    ensures DistinctIds(RemoveLines(cart, id))
  {
    if cart != [] {
      RemoveLinesDistinct(cart[1..], id);
      var rest := RemoveLines(cart[1..], id);
      if cart[0].id != id {
        assert RemoveLines(cart, id) == [cart[0]] + rest;
        forall j | 0 <= j < |rest| ensures rest[j].id != cart[0].id {
          assert rest[j] in rest;
          var k :| 0 <= k < |cart[1..]| && cart[1..][k] == rest[j];
          assert cart[k + 1] == rest[j];
        }
      }
    }
  }

  // ---- UPDATE_CART_ITEM ----

  /** UPDATE_CART_ITEM keeps the length and the ids, so distinct ids stay distinct. */
  lemma UpdateLineIds(cart: seq<CartItem>, id: int, quantity: int)
    ensures Ids(UpdateLine(cart, id, quantity)) == Ids(cart)
    ensures DistinctIds(cart) ==> DistinctIds(UpdateLine(cart, id, quantity))
  {
  }

  /** UPDATE_CART_ITEM changes only the line whose id matches: that product's quantity
      becomes the new quantity, every other product's quantity is unchanged. */
  lemma {:induction false} UpdateLineQuantity(cart: seq<CartItem>, id: int, quantity: int, other: int)
    requires DistinctIds(cart) && HasLine(cart, id)
    ensures QuantityOf(UpdateLine(cart, id, quantity), id) == quantity
    ensures other != id ==> QuantityOf(UpdateLine(cart, id, quantity), other) == QuantityOf(cart, other)
  {
    var r := UpdateLine(cart, id, quantity);
    assert r[1..] == UpdateLine(cart[1..], id, quantity);
    if cart[0].id == id {
      forall i | 0 <= i < |cart[1..]| ensures cart[1..][i].id != id {
        assert cart[1..][i] == cart[i + 1];
      }
      assert UpdateLine(cart[1..], id, quantity) == cart[1..];
      QuantityOfAbsent(cart[1..], id);
      UpdateLineOther(cart[1..], id, quantity, other);
    } else {
      assert HasLine(cart[1..], id) by {
        var i :| 0 <= i < |cart| && cart[i].id == id;
        assert cart[1..][i - 1].id == id;
      }
      UpdateLineQuantity(cart[1..], id, quantity, other);
    }
  }

  lemma {:induction false} QuantityOfAbsent(cart: seq<CartItem>, id: int)
    requires !HasLine(cart, id)
    ensures QuantityOf(cart, id) == 0
  {
    if cart != [] {
      forall i | 0 <= i < |cart[1..]| ensures cart[1..][i].id != id {
        assert cart[1..][i] == cart[i + 1];
      }
      QuantityOfAbsent(cart[1..], id);
    }
  }

  /** UPDATE_CART_ITEM leaves every line with another id as it was, keeps the matched
      line's name, price and stock ceiling, and so leaves other ids' quantities alone. */
  lemma {:induction false} UpdateLineOther(cart: seq<CartItem>, id: int, quantity: int, other: int)
    ensures forall i :: 0 <= i < |cart| && cart[i].id != id ==> UpdateLine(cart, id, quantity)[i] == cart[i]
    ensures forall i :: 0 <= i < |cart| && cart[i].id == id ==>
      var line := UpdateLine(cart, id, quantity)[i];
      line.id == id && line.name == cart[i].name && line.price == cart[i].price
      && line.stock == cart[i].stock && line.quantity == quantity
    ensures other != id ==> QuantityOf(UpdateLine(cart, id, quantity), other) == QuantityOf(cart, other)
  {
    if cart != [] {
      assert UpdateLine(cart, id, quantity)[1..] == UpdateLine(cart[1..], id, quantity);
      UpdateLineOther(cart[1..], id, quantity, other);
    }
  }

  // ---- the reducer as a whole ----

  /** Every cart action other than SET_CART (whose payload is taken as given) keeps the
      cart's product ids pairwise distinct. */
  lemma ReduceKeepsDistinctIds(state: AppState, action: Action)
    requires DistinctIds(state.cart) && !action.SetCart?
    ensures DistinctIds(Reduce(state, action).cart)
  {
    match action
    case AddToCart(item) => AddLineDistinct(state.cart, item);
    case RemoveFromCart(id) => RemoveLinesDistinct(state.cart, id);
    case UpdateCartItem(id, q) => UpdateLineIds(state.cart, id, q);
    case _ =>
  }
}
