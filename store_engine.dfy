// The store provider (context/StoreContext.tsx): five state cells, the nine
// operations that replace them, and the effects that save each persisted
// cell under its own key whenever it is set.
module StoreEngine {
  import opened Types
  import opened MockData
  import opened CartOps
  import opened Persistence

  /** The order placeOrder builds from the cart at call time. The id and the
      date come from the clock and are passed in. */
  function NewOrder(cart: seq<CartItem>, id: string, date: string): (o: Order)
    ensures o.status == Pending && o.items == cart
    ensures o.total == Subtotal(cart)
    ensures o.id == id && o.date == date
  {
    Order(id, date, Subtotal(cart), Pending, cart)
  }

  class Store {
    var products: seq<Product>
    var cart: seq<CartItem>
    var orders: seq<Order>
    var user: Option<User>
    var isCartOpen: bool
    const storage: LocalStorage

    function State(): Snapshot
      reads this
    {
      Snapshot(products, cart, orders, user)
    }

    /** The medium holds the current value of every persisted cell. */
    ghost predicate Persisted()
      reads this, storage
    {
      Holds(storage.entries, State())
    }

    /** Loads each cell from the medium or falls back to its default, then
        runs the four save effects of the first render. The source throws
        when a stored value cannot be decoded; such a medium is excluded. */
    constructor (medium: LocalStorage)
      requires LoadAll(medium.entries).Ok?
      modifies medium
      ensures storage == medium
      ensures State() == LoadAll(old(medium.entries)).value
      ensures !isCartOpen
      ensures storage.entries == SaveAll(old(medium.entries), State())
      ensures Persisted()
    {
      var loaded := LoadAll(medium.entries).value;
      products := loaded.products;
      cart := loaded.cart;
      orders := loaded.orders;
      user := loaded.user;
      isCartOpen := false;
      storage := medium;
      new;
      medium.SetItem(ProductsKey, ProductsBlob(products));
      medium.SetItem(CartKey, CartBlob(cart));
      medium.SetItem(OrdersKey, OrdersBlob(orders));
      medium.SetItem(UserKey, UserBlob(user));
      SaveThenLoad(old(medium.entries), State());
    }

    method SetCart(c: seq<CartItem>)
      requires Persisted()
      modifies this, storage
      ensures cart == c && Persisted()
      ensures products == old(products) && orders == old(orders) && user == old(user)
      ensures isCartOpen == old(isCartOpen)
      ensures storage.entries == old(storage.entries)[CartKey := CartBlob(c)]
    {
      cart := c;
      storage.SetItem(CartKey, CartBlob(c));
    }

    method AddToCart(p: Product)
      requires Persisted()
      modifies this, storage
      ensures cart == CartOps.AddToCart(old(cart), p) && isCartOpen
      ensures products == old(products) && orders == old(orders) && user == old(user)
      ensures storage.entries == old(storage.entries)[CartKey := CartBlob(cart)]
      ensures Persisted()
      ensures old(WellFormed(cart)) ==> WellFormed(cart)
    {
      SetCart(CartOps.AddToCart(cart, p));
      isCartOpen := true;
      if WellFormed(old(cart)) {
        AddToCartPreserves(old(cart), p);
      }
    }

    method RemoveFromCart(id: string)
      requires Persisted()
      modifies this, storage
      ensures cart == CartOps.RemoveFromCart(old(cart), id) && !InCart(cart, id)
      ensures products == old(products) && orders == old(orders) && user == old(user)
      ensures isCartOpen == old(isCartOpen)
      ensures storage.entries == old(storage.entries)[CartKey := CartBlob(cart)]
      ensures Persisted()
      ensures old(WellFormed(cart)) ==> WellFormed(cart)
    {
      if WellFormed(cart) {
        WithoutPreserves(cart, id);
      }
      WithoutMembers(cart, id);
      SetCart(Without(cart, id));
    }

    /** A quantity below 1 returns before the cart is set, so nothing is written. */
    method UpdateQuantity(id: string, quantity: int)
      requires Persisted()
      modifies this, storage
      ensures cart == CartOps.UpdateQuantity(old(cart), id, quantity)
      ensures products == old(products) && orders == old(orders) && user == old(user)
      ensures isCartOpen == old(isCartOpen)
      ensures quantity < 1 ==> storage.entries == old(storage.entries)
      ensures quantity >= 1 ==> storage.entries == old(storage.entries)[CartKey := CartBlob(cart)]
      ensures Persisted()
      ensures old(WellFormed(cart)) ==> WellFormed(cart)
    {
      if quantity < 1 {
        return;
      }
      SetCart(Rewrite(cart, id, SetTo(quantity)));
    }

    method ClearCart()
      requires Persisted()
      modifies this, storage
      ensures cart == []
      ensures products == old(products) && orders == old(orders) && user == old(user)
      ensures isCartOpen == old(isCartOpen)
      ensures storage.entries == old(storage.entries)[CartKey := CartBlob([])]
      ensures Persisted() && WellFormed(cart)
    {
      SetCart([]);
    }

    /** Prepends the order built from the current cart, then clears the cart;
        both cells are saved. */
    method PlaceOrder(id: string, date: string)
      requires Persisted()
      modifies this, storage
      ensures orders == [NewOrder(old(cart), id, date)] + old(orders)
      ensures orders[0].total == Subtotal(old(cart)) && orders[0].items == old(cart)
      ensures orders[1..] == old(orders)
      ensures cart == []
      ensures products == old(products) && user == old(user) && isCartOpen == old(isCartOpen)
      ensures storage.entries == old(storage.entries)[OrdersKey := OrdersBlob(orders)][CartKey := CartBlob([])]
      ensures Persisted()
    {
      var order := NewOrder(cart, id, date);
      orders := [order] + orders;
      storage.SetItem(OrdersKey, OrdersBlob(orders));
      SetCart([]);
    }

    method Login(role: UserRole)
      requires Persisted()
      modifies this, storage
      ensures user == Some(if role == Admin then MockAdmin else MockUser)
      ensures IsAdmin(user) <==> role == Admin
      ensures products == old(products) && cart == old(cart) && orders == old(orders)
      ensures isCartOpen == old(isCartOpen)
      ensures storage.entries == old(storage.entries)[UserKey := UserBlob(user)]
      ensures Persisted()
    {
      user := Some(CanonicalUser(role));
      storage.SetItem(UserKey, UserBlob(user));
    }

    /** Clears the session; the saved null reloads as null after a restart. */
    method Logout()
      requires Persisted()
      modifies this, storage
      ensures user == None
      ensures products == old(products) && cart == old(cart) && orders == old(orders)
      ensures isCartOpen == old(isCartOpen)
      ensures storage.entries == old(storage.entries)[UserKey := UserBlob(None)]
      ensures Persisted()
      ensures LoadUser(storage.entries) == Ok(None)
    {
      user := None;
      storage.SetItem(UserKey, UserBlob(None));
    }

    /** Prepends the product; no check that its id is new. */
    method AddProduct(p: Product)
      requires Persisted()
      modifies this, storage
      ensures products == [p] + old(products)
      ensures cart == old(cart) && orders == old(orders) && user == old(user)
      ensures isCartOpen == old(isCartOpen)
      ensures storage.entries == old(storage.entries)[ProductsKey := ProductsBlob(products)]
      ensures Persisted()
    {
      products := [p] + products;
      storage.SetItem(ProductsKey, ProductsBlob(products));
    }

    /** Removes every product with that id; the cart keeps its snapshots. */
    method DeleteProduct(id: string)
      requires Persisted()
      modifies this, storage
      ensures products == WithoutProduct(old(products), id)
      ensures forall p :: p in products <==> p in old(products) && p.id != id
      ensures cart == old(cart) && orders == old(orders) && user == old(user)
      ensures isCartOpen == old(isCartOpen)
      ensures storage.entries == old(storage.entries)[ProductsKey := ProductsBlob(products)]
      ensures Persisted()
    {
      WithoutProductMembers(products, id);
      products := WithoutProduct(products, id);
      storage.SetItem(ProductsKey, ProductsBlob(products));
    }

    method SetIsCartOpen(open: bool)
      modifies this
      ensures isCartOpen == open
      ensures State() == old(State())
      ensures Persisted() <==> old(Persisted())
    {
      isCartOpen := open;
    }
  }

  /** The catalog without the products whose id is `id` (the `filter` of deleteProduct). */
  function WithoutProduct(products: seq<Product>, id: string): seq<Product>
  {
    if products == [] then []
    else if products[0].id == id then WithoutProduct(products[1..], id)
    else [products[0]] + WithoutProduct(products[1..], id)
  }

  lemma {:induction false} WithoutProductMembers(products: seq<Product>, id: string)
    ensures forall p :: p in WithoutProduct(products, id) <==> p in products && p.id != id
  {
    if products != [] {
      WithoutProductMembers(products[1..], id);
      assert products == [products[0]] + products[1..];
    }
  }

  /** deleteProduct drops every copy with the id and keeps every copy of
      every other product. */
  lemma {:induction false} WithoutProductCounts(products: seq<Product>, id: string, x: Product)
    ensures multiset(WithoutProduct(products, id))[x] == if x.id == id then 0 else multiset(products)[x]
  {
    if products != [] {
      assert products == [products[0]] + products[1..];
      WithoutProductCounts(products[1..], id, x);
    }
  }

  /** Deleting a product leaves the cart's snapshot of it in place, and
      adding that stale snapshot to the cart again does not bring it back
      into the catalog. */
  method DeleteThenAddStale(s: Store, p: Product)
    requires s.Persisted()
    modifies s, s.storage
    ensures p !in s.products
    ensures InCart(s.cart, p.id)
  {
    s.DeleteProduct(p.id);
    s.AddToCart(p);
    assert InCart(s.cart, p.id) by {
      if !InCart(old(s.cart), p.id) {
        assert s.cart[|old(s.cart)|].Id() == p.id;
      } else {
        var k :| 0 <= k < |old(s.cart)| && old(s.cart)[k].Id() == p.id;
        assert s.cart[k].Id() == p.id;
      }
    }
  }

  /** The worked cart scenario: add A twice, reject quantity 0, remove A. */
  method CartScenario(s: Store, a: Product)
    requires s.Persisted() && s.cart == [] && a.price == 10000
    modifies s, s.storage
    ensures s.cart == []
  {
    s.AddToCart(a);
    assert s.cart == AddTimes([], a, 1);
    s.AddToCart(a);
    assert s.cart == AddTimes([], a, 2);
    RepeatedAdd(a, 2);
    assert s.cart == [CartItem(a, 2)];
    assert Subtotal(s.cart) == 20000;
    s.UpdateQuantity(a.id, 0);
    assert s.cart == [CartItem(a, 2)];
    WithoutSingle(CartItem(a, 2), a.id);
    s.RemoveFromCart(a.id);
  }
}
