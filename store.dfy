/** The browser record store, seen as one keyed table per collection. Keys are
    assigned by an auto-increment generator that starts at 1. */
module Store {
  import opened Wrappers
  import opened Records

  /** A collection: its rows by key and the next key the generator will hand out. */
  datatype Table<T> = Table(rows: map<int, T>, nextKey: int)
  {
    /** Every key in use was issued by the generator or lies below it. */
    predicate Valid()
    {
      1 <= nextKey && forall k :: k in rows ==> 1 <= k < nextKey
    }

    /** `get(id)`: the row stored under `key`, if any. */
    function Get(key: int): (r: Option<T>)
      ensures r.Some? <==> key in rows
      ensures r.Some? ==> r.value == rows[key]
    {
      if key in rows then Some(rows[key]) else None
    }

    /** `put(record)`: insert or replace the row under `key`; an explicit key at or
        above the generator moves the generator past it. */
    function Put(key: int, v: T): (t: Table<T>)
      ensures t.rows == rows[key := v]
      ensures Valid() && key in rows ==> t.nextKey == nextKey
    {
      Table(rows[key := v], if key >= nextKey then key + 1 else nextKey)
    }

    /** `add(record)`: store `v` under the next generated key, `nextKey`. */
    function Add(v: T): (t: Table<T>)
      requires Valid()
      ensures t.Valid()
      ensures nextKey !in rows
      ensures t.rows == rows[nextKey := v] && t.nextKey == nextKey + 1
    {
      Table(rows[nextKey := v], nextKey + 1)
    }
  }

  function EmptyTable<T>(): (t: Table<T>)
    ensures t.Valid() && t.rows == map[]
  {
    Table(map[], 1)
  }

  /** Putting a row leaves every other key as it was and makes `Get(key)` return it. */
  lemma PutGet<T>(t: Table<T>, key: int, v: T, other: int)
    ensures t.Put(key, v).Get(key) == Some(v)
    ensures other != key ==> t.Put(key, v).Get(other) == t.Get(other)
  {
  }

  /** Put keeps the table valid for any key the generator could have issued. */
  lemma PutValid<T>(t: Table<T>, key: int, v: T)
    requires t.Valid() && 1 <= key
    ensures t.Put(key, v).Valid()
  {
  }

  /** Rows keyed by their own id field (the `keyPath: 'id'` of the stores). */
  predicate ProductsKeyed(t: Table<Product>)
  {
    forall k :: k in t.rows ==> t.rows[k].id == k
  }

  predicate ClientsKeyed(t: Table<Client>)
  {
    forall k :: k in t.rows ==> t.rows[k].id == k
  }

  predicate SalesKeyed(t: Table<Sale>)
  {
    forall k :: k in t.rows ==> t.rows[k].id == k
  }

  predicate ExchangesKeyed(t: Table<Exchange>)
  {
    forall k :: k in t.rows ==> t.rows[k].id == k
  }

  /** The collections the checkout reads and writes. */
  datatype Db = Db(products: Table<Product>, clients: Table<Client>, sales: Table<Sale>, exchanges: Table<Exchange>)
  {
    predicate Valid()
    {
      && products.Valid() && clients.Valid() && sales.Valid() && exchanges.Valid()
      && ProductsKeyed(products) && ClientsKeyed(clients) && SalesKeyed(sales) && ExchangesKeyed(exchanges)
    }
  }

  /** A rejected store request. */
  datatype StoreError = StoreFailure
}
