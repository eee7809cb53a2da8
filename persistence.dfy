// The durable key-value medium behind the store and the load-or-default
// rule of the store's state initialisers (context/StoreContext.tsx).
// Values are kept as already-decoded blobs: the text encoding is not modelled.
module Persistence {
  import opened Types
  import opened MockData

  const ProductsKey: string := "prime_products"
  const CartKey: string := "prime_cart"
  const OrdersKey: string := "prime_orders"
  const UserKey: string := "prime_user"

  /** What a stored text decodes to. `EmptyText` is the empty string, which
      the loader treats as absent; `Unreadable` is text that does not decode. */
  datatype Blob =
    | ProductsBlob(products: seq<Product>)
    | CartBlob(cart: seq<CartItem>)
    | OrdersBlob(orders: seq<Order>)
    | UserBlob(user: Option<User>)
    | EmptyText
    | Unreadable

  datatype LoadError = CannotDecode(key: string)

  /** The four persisted cells of the store. */
  datatype Snapshot = Snapshot(products: seq<Product>, cart: seq<CartItem>, orders: seq<Order>, user: Option<User>)

  /** The state a first visit starts from. */
  const Defaults: Snapshot := Snapshot(MockProducts, [], [], Some(MockUser))

  /** The device's local storage: a map from key to stored value. */
  class LocalStorage {
    var entries: map<string, Blob>

    constructor (initial: map<string, Blob>)
      ensures entries == initial
    {
      entries := initial;
    }

    method SetItem(key: string, value: Blob)
      modifies this
      ensures entries == old(entries)[key := value]
    {
      entries := entries[key := value];
    }
  }

  /** The stored value for `key` when it is present and non-empty (truthy). */
  function Saved(entries: map<string, Blob>, key: string): (r: Option<Blob>)
    ensures r.Some? <==> key in entries && entries[key] != EmptyText
    ensures r.Some? ==> r.value == entries[key]
  {
    if key in entries && entries[key] != EmptyText then Some(entries[key]) else None
  }

  function LoadProducts(entries: map<string, Blob>): Result<seq<Product>, LoadError>
  {
    match Saved(entries, ProductsKey)
    case None => Ok(Defaults.products)
    case Some(ProductsBlob(ps)) => Ok(ps)
    case Some(_) => Err(CannotDecode(ProductsKey))
  }

  function LoadCart(entries: map<string, Blob>): Result<seq<CartItem>, LoadError>
  {
    match Saved(entries, CartKey)
    case None => Ok(Defaults.cart)
    case Some(CartBlob(c)) => Ok(c)
    case Some(_) => Err(CannotDecode(CartKey))
  }

  function LoadOrders(entries: map<string, Blob>): Result<seq<Order>, LoadError>
  {
    match Saved(entries, OrdersKey)
    case None => Ok(Defaults.orders)
    case Some(OrdersBlob(os)) => Ok(os)
    case Some(_) => Err(CannotDecode(OrdersKey))
  }

  function LoadUser(entries: map<string, Blob>): Result<Option<User>, LoadError>
  {
    match Saved(entries, UserKey)
    case None => Ok(Defaults.user)
    case Some(UserBlob(u)) => Ok(u)
    case Some(_) => Err(CannotDecode(UserKey))
  }

  /** The four initialisers in the order the store runs them; the first one
      that cannot decode its value aborts the start-up. */
  function LoadAll(entries: map<string, Blob>): Result<Snapshot, LoadError>
  {
    match (LoadProducts(entries), LoadCart(entries), LoadOrders(entries), LoadUser(entries))
    case (Err(e), _, _, _) => Err(e)
    case (Ok(_), Err(e), _, _) => Err(e)
    case (Ok(_), Ok(_), Err(e), _) => Err(e)
    case (Ok(ps), Ok(c), Ok(os), Err(e)) => Err(e)
    case (Ok(ps), Ok(c), Ok(os), Ok(u)) => Ok(Snapshot(ps, c, os, u))
  }

  /** The entries hold exactly the blobs a save of `s` writes under the four keys. */
  predicate Holds(entries: map<string, Blob>, s: Snapshot)
  {
    && ProductsKey in entries && entries[ProductsKey] == ProductsBlob(s.products)
    && CartKey in entries && entries[CartKey] == CartBlob(s.cart)
    && OrdersKey in entries && entries[OrdersKey] == OrdersBlob(s.orders)
    && UserKey in entries && entries[UserKey] == UserBlob(s.user)
  }

  /** Writes all four cells, as the save effects do when the store mounts. */
  function SaveAll(entries: map<string, Blob>, s: Snapshot): map<string, Blob>
  {
    entries[ProductsKey := ProductsBlob(s.products)][CartKey := CartBlob(s.cart)]
           [OrdersKey := OrdersBlob(s.orders)][UserKey := UserBlob(s.user)]
  }

  /** An empty medium loads the defaults: the empty catalog, an empty cart,
      no orders and the demo customer. */
  lemma LoadEmpty()
    ensures LoadAll(map[]) == Ok(Snapshot([], [], [], Some(MockUser)))
  {
  }

  /** Every key is read on its own: a missing or empty value yields that
      key's default whatever the other keys hold. */
  lemma LoadOrDefault(entries: map<string, Blob>)
    ensures Saved(entries, ProductsKey).None? ==> LoadProducts(entries) == Ok([])
    ensures Saved(entries, CartKey).None? ==> LoadCart(entries) == Ok([])
    ensures Saved(entries, OrdersKey).None? ==> LoadOrders(entries) == Ok([])
    ensures Saved(entries, UserKey).None? ==> LoadUser(entries) == Ok(Some(MockUser))
  {
  }

  /** A restart reloads what was saved, for all four cells, the empty
      collections and a logged-out (null) user included: a saved null user
      reloads as null, not as the demo customer. */
  lemma SaveThenLoad(entries: map<string, Blob>, s: Snapshot)
    ensures Holds(SaveAll(entries, s), s)
    ensures LoadAll(SaveAll(entries, s)) == Ok(s)
  {
    var m := SaveAll(entries, s);
    RestartReloads(m, s);
  }

  lemma RestartReloads(entries: map<string, Blob>, s: Snapshot)
    requires Holds(entries, s)
    ensures LoadAll(entries) == Ok(s)
  {
    assert Saved(entries, ProductsKey) == Some(ProductsBlob(s.products));
    assert Saved(entries, CartKey) == Some(CartBlob(s.cart));
    assert Saved(entries, OrdersKey) == Some(OrdersBlob(s.orders));
    assert Saved(entries, UserKey) == Some(UserBlob(s.user));
  }

  /** Saving one cell leaves what the other keys load unchanged. */
  lemma SaveIsolated(entries: map<string, Blob>, c: seq<CartItem>)
    ensures LoadProducts(entries[CartKey := CartBlob(c)]) == LoadProducts(entries)
    ensures LoadOrders(entries[CartKey := CartBlob(c)]) == LoadOrders(entries)
    ensures LoadUser(entries[CartKey := CartBlob(c)]) == LoadUser(entries)
    ensures LoadCart(entries[CartKey := CartBlob(c)]) == Ok(c)
  {
  }
}
