/** The application provider: the reducer state plus the record store, with the
    sale commit, exchange registration and exchange status update that write to it. */
module App {
  import opened Wrappers
  import opened Records
  import opened Store
  import opened Cart

  /** One step of the stock loop: if the item's product exists, write it back with its
      stock lowered by the item quantity (no lower bound); otherwise skip the item. */
  function DecrementStock(products: Table<Product>, item: SaleItem): Table<Product>
  {
    match products.Get(item.productId)
    case None => products
    case Some(p) => products.Put(p.id, p.(stock := p.stock - item.quantity))
  }

  /** The products table after the stock loop has handled `items` in order. */
  function ApplyStock(products: Table<Product>, items: seq<SaleItem>): Table<Product>
  {
    if items == [] then products
    else DecrementStock(ApplyStock(products, items[..|items| - 1]), items[|items| - 1])
  }

  /** The total quantity of product `id` over the sale items. */
  function QuantitySold(items: seq<SaleItem>, id: int): int
  {
    if items == [] then 0
    else QuantitySold(items[..|items| - 1], id)
         + (if items[|items| - 1].productId == id then items[|items| - 1].quantity else 0)
  }

  /** How many items name a product present in `products`: the number of stock writes. */
  function ExistingCount(products: Table<Product>, items: seq<SaleItem>): nat
  {
    if items == [] then 0
    else ExistingCount(products, items[..|items| - 1])
         + (if items[|items| - 1].productId in products.rows then 1 else 0)
  }

  /** The `{id, name}` snapshot attached to a sale: only when the client id is truthy and
      the client exists. */
  function ClientSnapshot(clients: Table<Client>, clientId: Option<int>): (r: Option<ClientRef>)
    ensures r.Some? <==> IsTruthyId(clientId) && clientId.value in clients.rows
    ensures r.Some? ==> r.value == ClientRef(clients.rows[clientId.value].id, clients.rows[clientId.value].name)
  {
    if IsTruthyId(clientId) then
      match clients.Get(clientId.value)
      case Some(c) => Some(ClientRef(c.id, c.name))
      case None => None
    else None
  }

  /** `{...exchange, status: newStatus}`. */
  function WithStatus(e: Exchange, status: ExchangeStatus): Exchange
  {
    e.(info := e.info.(status := status))
  }

  /** The stock loop keeps the key set, the keying by id and the generator; every product
      present loses exactly the quantity sold of it, and no product is created. */
  lemma {:induction false} ApplyStockEffect(products: Table<Product>, items: seq<SaleItem>)
    requires products.Valid() && ProductsKeyed(products)
    ensures var after := ApplyStock(products, items);
      && after.Valid() && ProductsKeyed(after)
      && after.rows.Keys == products.rows.Keys && after.nextKey == products.nextKey
      && forall k :: k in products.rows ==>
           after.rows[k] == products.rows[k].(stock := products.rows[k].stock - QuantitySold(items, k))
  {
    if items != [] {
      var n := |items|;
      ApplyStockEffect(products, items[..n - 1]);
    }
  }

  /** A prefix of the items needs no more stock writes than all of them. */
  lemma {:induction false} ExistingCountPrefix(products: Table<Product>, items: seq<SaleItem>, j: nat)
    requires j <= |items|
    ensures ExistingCount(products, items[..j]) <= ExistingCount(products, items)
  {
    if j < |items| {
      var n := |items|;
      assert items[..n - 1][..j] == items[..j];
      ExistingCountPrefix(products, items[..n - 1], j);
    } else {
      assert items[..j] == items;
    }
  }

  /** A product absent from the store stays absent: its items are skipped. */
  lemma MissingProductSkipped(products: Table<Product>, items: seq<SaleItem>, id: int)
    requires products.Valid() && ProductsKeyed(products) && id !in products.rows
    ensures ApplyStock(products, items).Get(id) == None
  {
    ApplyStockEffect(products, items);
  }

  /** The stock check is only on the cart: with enough sold, stock goes below zero. */
  lemma StockCanGoNegative()
    ensures var p := Product(1, "p", "", 1.0, 1.0, 1, 0, "c", None, "", "", "");
            var t := Table(map[1 := p], 2);
            ApplyStock(t, [SaleItem(1, "p", 3, 1.0, 3.0)]).Get(1) == Some(p.(stock := -2))
  {
    var p := Product(1, "p", "", 1.0, 1.0, 1, 0, "c", None, "", "", "");
    var items := [SaleItem(1, "p", 3, 1.0, 3.0)];
    assert items[..0] == [];
  }

  /** The exchange status update changes only the status of that exchange. */
  lemma StatusUpdateOnlyStatus(exchanges: Table<Exchange>, id: int, status: ExchangeStatus, other: int)
    requires id in exchanges.rows
    ensures var after := exchanges.Put(id, WithStatus(exchanges.rows[id], status));
      && after.rows.Keys == exchanges.rows.Keys
      && after.rows[id].id == exchanges.rows[id].id
      && after.rows[id].info.status == status
      && after.rows[id].info.saleId == exchanges.rows[id].info.saleId
      && after.rows[id].info.reason == exchanges.rows[id].info.reason
      && after.rows[id].info.description == exchanges.rows[id].info.description
      && after.rows[id].info.date == exchanges.rows[id].info.date
      && (other != id ==> after.Get(other) == exchanges.Get(other))
  {
  }

  /** Exactly `n` stock writes have happened: the loop stopped after a prefix of the items. */
  ghost predicate StockWritesDone(before: Table<Product>, after: Table<Product>, items: seq<SaleItem>, n: nat)
  {
    exists j :: 0 <= j <= |items| && ExistingCount(before, items[..j]) == n && after == ApplyStock(before, items[..j])
  }

  /** The `for (const item of saleData.items)` loop of the sale commit, run against the
      products table: each item whose product exists is written back with lowered stock.
      Write number `w` (counting the sale as write 0) is rejected when `failingWrite == Some(w)`;
      the loop then stops with the writes before it kept and reports `ok == false`. */
  method StockLoop(products: Table<Product>, items: seq<SaleItem>, failingWrite: Option<nat>)
    returns (after: Table<Product>, ok: bool)
    requires products.Valid() && ProductsKeyed(products)
    requires failingWrite != Some(0)
    ensures after.Valid() && ProductsKeyed(after) && after.rows.Keys == products.rows.Keys
    ensures ok <==> failingWrite.None? || failingWrite.value > ExistingCount(products, items)
    ensures ok ==> after == ApplyStock(products, items)
    ensures !ok ==> StockWritesDone(products, after, items, failingWrite.value - 1)
  {
    after := products;
    var writes := 1;
    var i := 0;
    while i < |items|
      invariant 0 <= i <= |items|
      invariant after == ApplyStock(products, items[..i])
      invariant writes == 1 + ExistingCount(products, items[..i])
      invariant failingWrite.None? || failingWrite.value >= writes
    {
      ApplyStockEffect(products, items[..i]);
      assert items[..i + 1][..i] == items[..i];
      var item := items[i];
      var product := after.Get(item.productId);
      if product.Some? {
        if failingWrite == Some(writes) {
          assert ExistingCount(products, items[..i + 1]) == writes;
          ExistingCountPrefix(products, items, i + 1);
          ok := false;
          return;
        }
        after := after.Put(product.value.id, product.value.(stock := product.value.stock - item.quantity));
        writes := writes + 1;
      }
      i := i + 1;
    }
    assert items[..|items|] == items;
    ApplyStockEffect(products, items);
    ok := true;
  }

  class AppProvider {
    var state: AppState
    var db: Db

    constructor ()
      ensures state == InitialState
      ensures db == Db(EmptyTable(), EmptyTable(), EmptyTable(), EmptyTable()) && db.Valid()
    {
      state := InitialState;
      db := Db(EmptyTable(), EmptyTable(), EmptyTable(), EmptyTable());
    }

    /** `dispatch(action)`. */
    method Dispatch(action: Action)
      modifies this`state
      ensures state == Reduce(old(state), action)
    {
      state := Reduce(state, action);
    }

    /** `processSale(saleData)`. Store writes are numbered from 0 (the sale) upwards (one
        per item whose product exists); `failingWrite` names the write the store rejects,
        `None` meaning it rejects none. A rejected write aborts the commit with the
        earlier writes kept and the reducer state untouched. */
    method ProcessSale(saleData: SaleData, failingWrite: Option<nat>) returns (r: Result<Sale, StoreError>)
      requires db.Valid()
      modifies this
      ensures db.Valid()
      ensures db.clients == old(db.clients) && db.exchanges == old(db.exchanges)
      ensures r.Success? <==> failingWrite.None? || failingWrite.value > ExistingCount(old(db.products), saleData.items)
      ensures r.Success? ==>
        && r.value == Sale(old(db.sales.nextKey), saleData, ClientSnapshot(old(db.clients), saleData.clientId))
        && db.sales == old(db.sales).Add(r.value)
        && db.products == ApplyStock(old(db.products), saleData.items)
        && state == old(state).(cart := [], lastCompletedSale := Some(r.value))
      ensures r.Failure? ==> state == old(state)
      ensures r.Failure? && failingWrite == Some(0) ==> db == old(db)
      ensures r.Failure? && failingWrite != Some(0) ==>
        && db.sales == old(db.sales).Add(Sale(old(db.sales.nextKey), saleData, ClientSnapshot(old(db.clients), saleData.clientId)))
        && StockWritesDone(old(db.products), db.products, saleData.items, failingWrite.value - 1)
    {
      var clientInfo: Option<ClientRef> := None;
      if IsTruthyId(saleData.clientId) {
        var client := db.clients.Get(saleData.clientId.value);
        if client.Some? {
          clientInfo := Some(ClientRef(client.value.id, client.value.name));
        }
      }
      var sale := Sale(db.sales.nextKey, saleData, clientInfo);
      if failingWrite == Some(0) {
        return Failure(StoreFailure);
      }
      db := db.(sales := db.sales.Add(sale));

      var products, ok := StockLoop(db.products, saleData.items, failingWrite);
      db := db.(products := products);
      if !ok {
        return Failure(StoreFailure);
      }
      state := Reduce(Reduce(state, ClearCart), SetLastCompletedSale(Some(sale)));
      return Success(sale);
    }

    /** `addExchange(exchange)`: store it under a fresh id. A rejected write is reported
        and swallowed, leaving the store as it was. */
    method AddExchange(info: ExchangeInfo, writeFails: bool)
      requires db.Valid()
      modifies this`db
      ensures db.Valid()
      ensures db.products == old(db.products) && db.clients == old(db.clients) && db.sales == old(db.sales)
      ensures db.exchanges == if writeFails then old(db.exchanges)
                              else old(db.exchanges).Add(Exchange(old(db.exchanges.nextKey), info))
    {
      if !writeFails {
        db := db.(exchanges := db.exchanges.Add(Exchange(db.exchanges.nextKey, info)));
      }
    }

    /** `updateExchange(id, newStatus)`: read the exchange, and only when it exists write
        it back with the new status. A rejected write is reported and swallowed. */
    method UpdateExchange(id: int, newStatus: ExchangeStatus, writeFails: bool)
      requires db.Valid()
      modifies this`db
      ensures db.Valid()
      ensures db.products == old(db.products) && db.clients == old(db.clients) && db.sales == old(db.sales)
      ensures db.exchanges == if id in old(db.exchanges.rows) && !writeFails
                              then old(db.exchanges).Put(id, WithStatus(old(db.exchanges.rows[id]), newStatus))
                              else old(db.exchanges)
    {
      var exchange := db.exchanges.Get(id);
      if exchange.Some? && !writeFails {
        db := db.(exchanges := db.exchanges.Put(exchange.value.id, WithStatus(exchange.value, newStatus)));
      }
    }
  }
}
