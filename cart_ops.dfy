// The list transitions behind the store's cart operations
// (context/StoreContext.tsx) and the derived cart totals.
module CartOps {
  import opened Types

  /** Some item of the cart carries product id `id` (the `find` of addToCart). */
  predicate InCart(cart: seq<CartItem>, id: string)
  {
    exists i | 0 <= i < |cart| :: cart[i].Id() == id
  }

  /** The cart invariant: ids are distinct and every quantity is at least 1. */
  predicate WellFormed(cart: seq<CartItem>)
  {
    && (forall i, j | 0 <= i < j < |cart| :: cart[i].Id() != cart[j].Id())
    && (forall i | 0 <= i < |cart| :: cart[i].quantity >= 1)
  }

  /** What the `map` over the cart does to a matching item. */
  datatype Change = Bump | SetTo(quantity: int)

  function Apply(item: CartItem, change: Change): CartItem
  {
    match change
    case Bump => item.(quantity := item.quantity + 1)
    case SetTo(q) => item.(quantity := q)
  }

  /** The cart with `change` applied to every item whose id is `id`. */
  function Rewrite(cart: seq<CartItem>, id: string, change: Change): (r: seq<CartItem>)
    ensures |r| == |cart|
    ensures forall i | 0 <= i < |cart| ::
      r[i] == if cart[i].Id() == id then Apply(cart[i], change) else cart[i]
  {
    if cart == [] then []
    else
      var head := if cart[0].Id() == id then Apply(cart[0], change) else cart[0];
      [head] + Rewrite(cart[1..], id, change)
  }

  /** The cart without the items whose id is `id` (the `filter` of removeFromCart). */
  function Without(cart: seq<CartItem>, id: string): seq<CartItem>
  {
    if cart == [] then []
    else if cart[0].Id() == id then Without(cart[1..], id)
    else [cart[0]] + Without(cart[1..], id)
  }

  /** addToCart: bump the matching item, or append the product with quantity 1. */
  function AddToCart(cart: seq<CartItem>, p: Product): seq<CartItem>
  {
    if InCart(cart, p.id) then Rewrite(cart, p.id, Bump) else cart + [CartItem(p, 1)]
  }

  function RemoveFromCart(cart: seq<CartItem>, id: string): seq<CartItem>
  {
    Without(cart, id)
  }

  /** updateQuantity: a quantity below 1 is rejected and leaves the cart as it is. */
  function UpdateQuantity(cart: seq<CartItem>, id: string, quantity: int): seq<CartItem>
  {
    if quantity < 1 then cart else Rewrite(cart, id, SetTo(quantity))
  }

  /** Sum of price times quantity (the `reduce` behind subtotal and totalCartPrice). */
  function Subtotal(cart: seq<CartItem>): int
  {
    if cart == [] then 0 else cart[0].LineTotal() + Subtotal(cart[1..])
  }

  /** Sum of the quantities (the `reduce` behind cartItemCount). */
  function ItemCount(cart: seq<CartItem>): int
  {
    if cart == [] then 0 else cart[0].quantity + ItemCount(cart[1..])
  }

  // ---------------------------------------------------------------------
  // addToCart

  /** Adding a product already in a well-formed cart bumps exactly that
      item's quantity; length and every other item stay as they were. */
  lemma AddToCartExisting(cart: seq<CartItem>, p: Product, k: int)
    requires WellFormed(cart)
    requires 0 <= k < |cart| && cart[k].Id() == p.id
    ensures var r := AddToCart(cart, p);
      && |r| == |cart|
      && r[k] == cart[k].(quantity := cart[k].quantity + 1)
      && forall j | 0 <= j < |cart| && j != k :: r[j] == cart[j]
  {
  }

  /** Adding a product not in the cart appends it with quantity 1. */
  lemma AddToCartNew(cart: seq<CartItem>, p: Product)
    requires !InCart(cart, p.id)
    ensures AddToCart(cart, p) == cart + [CartItem(p, 1)]
  {
  }

  lemma AddToCartPreserves(cart: seq<CartItem>, p: Product)
    requires WellFormed(cart)
    ensures WellFormed(AddToCart(cart, p))
    ensures InCart(AddToCart(cart, p), p.id)
  {
    var r := AddToCart(cart, p);
    if !InCart(cart, p.id) {
      assert r[|cart|].Id() == p.id;
      forall i | 0 <= i < |cart| ensures r[i] == cart[i] && r[i].Id() != p.id {
      }
    } else {
      var k :| 0 <= k < |cart| && cart[k].Id() == p.id;
      forall i | 0 <= i < |cart| ensures r[i].Id() == cart[i].Id() && r[i].quantity >= 1 {
      }
      assert r[k].Id() == p.id;
    }
  }

  /** The count grows by exactly one on a well-formed cart. */
  lemma {:induction false} AddToCartCount(cart: seq<CartItem>, p: Product)
    requires WellFormed(cart)
    ensures ItemCount(AddToCart(cart, p)) == ItemCount(cart) + 1
  {
    if InCart(cart, p.id) {
      var k :| 0 <= k < |cart| && cart[k].Id() == p.id;
      RewriteOneCount(cart, p.id, k);
    } else {
      ItemCountAppend(cart, [CartItem(p, 1)]);
    }
  }

  /** Rewriting the single item with id `id` changes the count by the
      difference of its quantities. */
  lemma {:induction false} RewriteOneCount(cart: seq<CartItem>, id: string, k: int)
    requires WellFormed(cart)
    requires 0 <= k < |cart| && cart[k].Id() == id
    ensures ItemCount(Rewrite(cart, id, Bump)) == ItemCount(cart) + 1
  {
    if k == 0 {
      assert forall j | 0 <= j < |cart[1..]| :: cart[1..][j].Id() != id by {
        forall j | 0 <= j < |cart[1..]| ensures cart[1..][j].Id() != id {
          assert cart[1..][j] == cart[j + 1];
        }
      }
      RewriteMissCount(cart[1..], id, Bump);
    } else {
      RewriteOneCount(cart[1..], id, k - 1);
    }
  }

  lemma {:induction false} RewriteMissCount(cart: seq<CartItem>, id: string, change: Change)
    requires forall j | 0 <= j < |cart| :: cart[j].Id() != id
    ensures Rewrite(cart, id, change) == cart
  {
    if cart != [] {
      RewriteMissCount(cart[1..], id, change);
    }
  }

  lemma {:induction false} ItemCountAppend(a: seq<CartItem>, b: seq<CartItem>)
    ensures ItemCount(a + b) == ItemCount(a) + ItemCount(b)
  {
    if a != [] {
      assert (a + b)[0] == a[0];
      assert (a + b)[1..] == a[1..] + b;
      ItemCountAppend(a[1..], b);
    } else {
      assert a + b == b;
    }
  }

  lemma {:induction false} SubtotalAppend(a: seq<CartItem>, b: seq<CartItem>)
    ensures Subtotal(a + b) == Subtotal(a) + Subtotal(b)
  {
    if a != [] {
      assert (a + b)[0] == a[0];
      assert (a + b)[1..] == a[1..] + b;
      SubtotalAppend(a[1..], b);
    } else {
      assert a + b == b;
    }
  }

  /** The subtotal grows by one unit price: the stored snapshot's price when
      the product is already in the cart, the given product's price otherwise. */
  lemma {:induction false} AddToCartSubtotal(cart: seq<CartItem>, p: Product)
    requires WellFormed(cart)
    ensures !InCart(cart, p.id) ==> Subtotal(AddToCart(cart, p)) == Subtotal(cart) + p.price
    ensures forall k | 0 <= k < |cart| && cart[k].Id() == p.id ::
      Subtotal(AddToCart(cart, p)) == Subtotal(cart) + cart[k].product.price
  {
    if !InCart(cart, p.id) {
      SubtotalAppend(cart, [CartItem(p, 1)]);
    } else {
      forall k | 0 <= k < |cart| && cart[k].Id() == p.id
        ensures Subtotal(AddToCart(cart, p)) == Subtotal(cart) + cart[k].product.price
      {
        BumpSubtotal(cart, p.id, k);
      }
    }
  }

  lemma {:induction false} BumpSubtotal(cart: seq<CartItem>, id: string, k: int)
    requires WellFormed(cart)
    requires 0 <= k < |cart| && cart[k].Id() == id
    ensures Subtotal(Rewrite(cart, id, Bump)) == Subtotal(cart) + cart[k].product.price
  {
    if k == 0 {
      forall j | 0 <= j < |cart[1..]| ensures cart[1..][j].Id() != id {
        assert cart[1..][j] == cart[j + 1];
      }
      RewriteMissCount(cart[1..], id, Bump);
    } else {
      BumpSubtotal(cart[1..], id, k - 1);
    }
  }

  /** Adding the same product n times to an empty cart yields exactly one
      item for it, with quantity n. */
  function AddTimes(cart: seq<CartItem>, p: Product, n: nat): seq<CartItem>
  {
    if n == 0 then cart else AddToCart(AddTimes(cart, p, n - 1), p)
  }

  lemma {:induction false} RepeatedAdd(p: Product, n: nat)
    requires n >= 1
    ensures AddTimes([], p, n) == [CartItem(p, n)]
  {
    if n > 1 {
      RepeatedAdd(p, n - 1);
      var c := [CartItem(p, n - 1)];
      assert InCart(c, p.id) by { assert c[0].Id() == p.id; }
    }
  }

  // ---------------------------------------------------------------------
  // removeFromCart

  /** Removal keeps the survivors in their original order: it distributes
      over concatenation and keeps or drops each single item. */
  lemma {:induction false} WithoutAppend(a: seq<CartItem>, b: seq<CartItem>, id: string)
    ensures Without(a + b, id) == Without(a, id) + Without(b, id)
  {
    if a != [] {
      assert (a + b)[0] == a[0];
      assert (a + b)[1..] == a[1..] + b;
      WithoutAppend(a[1..], b, id);
    } else {
      assert a + b == b;
    }
  }

  lemma WithoutSingle(x: CartItem, id: string)
    ensures Without([x], id) == if x.Id() == id then [] else [x]
  {
    assert [x][1..] == [];
  }

  /** Removing an id that is not in the cart changes nothing. */
  lemma {:induction false} WithoutMissing(cart: seq<CartItem>, id: string)
    requires !InCart(cart, id)
    ensures Without(cart, id) == cart
  {
    if cart != [] {
      assert cart[0].Id() != id;
      assert !InCart(cart[1..], id) by {
        forall j | 0 <= j < |cart[1..]| ensures cart[1..][j].Id() != id {
          assert cart[1..][j] == cart[j + 1];
        }
      }
      WithoutMissing(cart[1..], id);
      assert cart == [cart[0]] + cart[1..];
    }
  }

  /** The survivors of a removal are the items of the cart whose id differs. */
  lemma WithoutMembers(cart: seq<CartItem>, id: string)
    ensures forall x :: x in Without(cart, id) <==> x in cart && x.Id() != id
    ensures !InCart(Without(cart, id), id)
  {
    forall x ensures x in Without(cart, id) <==> x in cart && x.Id() != id {
      WithoutCounts(cart, id, x);
      assert x in Without(cart, id) <==> multiset(Without(cart, id))[x] > 0;
      assert x in cart <==> multiset(cart)[x] > 0;
    }
  }

  /** Removal drops every copy of the items with that id and keeps every
      copy of the others. */
  lemma {:induction false} WithoutCounts(cart: seq<CartItem>, id: string, x: CartItem)
    ensures multiset(Without(cart, id))[x] == if x.Id() == id then 0 else multiset(cart)[x]
  {
    if cart != [] {
      assert cart == [cart[0]] + cart[1..];
      WithoutCounts(cart[1..], id, x);
    }
  }

  lemma {:induction false} WithoutPreserves(cart: seq<CartItem>, id: string)
    requires WellFormed(cart)
    ensures WellFormed(RemoveFromCart(cart, id))
    ensures !InCart(RemoveFromCart(cart, id), id)
  {
    if cart != [] {
      WellFormedTail(cart);
      WithoutPreserves(cart[1..], id);
      if cart[0].Id() != id {
        WithoutKeepsOut(cart[1..], id, cart[0].Id());
        WellFormedCons(cart[0], Without(cart[1..], id));
      }
    }
  }

  /** An id absent from the cart stays absent after a removal. */
  lemma {:induction false} WithoutKeepsOut(cart: seq<CartItem>, id: string, other: string)
    requires !InCart(cart, other)
    ensures !InCart(Without(cart, id), other)
  {
    if cart != [] {
      assert cart[0].Id() != other;
      assert !InCart(cart[1..], other) by {
        forall j | 0 <= j < |cart[1..]| ensures cart[1..][j].Id() != other {
          assert cart[1..][j] == cart[j + 1];
        }
      }
      WithoutKeepsOut(cart[1..], id, other);
      var r := Without(cart[1..], id);
      if cart[0].Id() != id {
        forall j | 0 <= j < |[cart[0]] + r| ensures ([cart[0]] + r)[j].Id() != other {
          if j > 0 { assert ([cart[0]] + r)[j] == r[j - 1]; }
        }
      }
    }
  }

  lemma WellFormedTail(cart: seq<CartItem>)
    requires WellFormed(cart) && cart != []
    ensures WellFormed(cart[1..])
    ensures !InCart(cart[1..], cart[0].Id())
    ensures cart[0].quantity >= 1
  {
    var tail := cart[1..];
    forall i, j | 0 <= i < j < |tail| ensures tail[i].Id() != tail[j].Id() {
      assert tail[i] == cart[i + 1] && tail[j] == cart[j + 1];
    }
    forall i | 0 <= i < |tail| ensures tail[i].quantity >= 1 && tail[i].Id() != cart[0].Id() {
      assert tail[i] == cart[i + 1];
    }
  }

  lemma WellFormedCons(x: CartItem, cart: seq<CartItem>)
    requires WellFormed(cart) && x.quantity >= 1 && !InCart(cart, x.Id())
    ensures WellFormed([x] + cart)
  {
    var r := [x] + cart;
    forall i, j | 0 <= i < j < |r| ensures r[i].Id() != r[j].Id() {
      assert r[j] == cart[j - 1];
      if i > 0 { assert r[i] == cart[i - 1]; }
    }
    forall i | 0 <= i < |r| ensures r[i].quantity >= 1 {
      if i > 0 { assert r[i] == cart[i - 1]; }
    }
  }

  // ---------------------------------------------------------------------
  // updateQuantity

  /** A quantity below 1 is rejected and leaves the cart unchanged; an
      accepted quantity is set on the matching items only. */
  lemma UpdateQuantitySpec(cart: seq<CartItem>, id: string, q: int)
    ensures q < 1 ==> UpdateQuantity(cart, id, q) == cart
    ensures q >= 1 ==>
      && |UpdateQuantity(cart, id, q)| == |cart|
      && forall i | 0 <= i < |cart| ::
           UpdateQuantity(cart, id, q)[i] == if cart[i].Id() == id then cart[i].(quantity := q) else cart[i]
    ensures !InCart(cart, id) ==> UpdateQuantity(cart, id, q) == cart
  {
    if q >= 1 && !InCart(cart, id) {
      RewriteMissCount(cart, id, SetTo(q));
    }
  }

  lemma UpdateQuantityPreserves(cart: seq<CartItem>, id: string, q: int)
    requires WellFormed(cart)
    ensures WellFormed(UpdateQuantity(cart, id, q))
  {
  }

  /** Items, hence ids, are never added or removed by updateQuantity. */
  lemma UpdateQuantityKeepsIds(cart: seq<CartItem>, id: string, q: int, other: string)
    ensures InCart(UpdateQuantity(cart, id, q), other) <==> InCart(cart, other)
  {
    var r := UpdateQuantity(cart, id, q);
    if InCart(cart, other) {
      var k :| 0 <= k < |cart| && cart[k].Id() == other;
      assert r[k].Id() == other;
    }
    if InCart(r, other) {
      var k :| 0 <= k < |r| && r[k].Id() == other;
      assert cart[k].Id() == other;
    }
  }

  // ---------------------------------------------------------------------
  // Derived totals

  /** On a well-formed cart every line counts at least once, so the count
      is positive exactly when the cart is non-empty. */
  lemma {:induction false} ItemCountBound(cart: seq<CartItem>)
    requires WellFormed(cart)
    ensures ItemCount(cart) >= |cart|
    ensures ItemCount(cart) > 0 <==> cart != []
  {
    if cart != [] {
      WellFormedTail(cart);
      ItemCountBound(cart[1..]);
    }
  }

  /** With non-negative prices the subtotal is non-negative. */
  lemma {:induction false} SubtotalNonNegative(cart: seq<CartItem>)
    requires forall i | 0 <= i < |cart| :: cart[i].product.price >= 0 && cart[i].quantity >= 0
    ensures Subtotal(cart) >= 0
  {
    if cart != [] {
      assert cart[0].product.price * cart[0].quantity >= 0;
      SubtotalNonNegative(cart[1..]);
    }
  }
}
