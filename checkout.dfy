// The checkout page (pages/Checkout.tsx): the subtotal, shipping and total
// it shows, the shipping form's name defaults, and the payment guard.
module Checkout {
  import opened Types
  import opened CartOps
  import opened StoreEngine
  import opened Persistence

  /** Orders strictly above 200 dollars ship free; others pay 25 dollars. */
  const FreeShippingAbove: int := 20000
  const ShippingFee: int := 2500

  function Shipping(subtotal: int): (r: int)
    ensures r == 0 <==> subtotal > FreeShippingAbove
    ensures r == 0 || r == ShippingFee
  {
    if subtotal > FreeShippingAbove then 0 else ShippingFee
  }

  /** What the page shows for a cart: nothing to pay for an empty cart,
      otherwise subtotal, shipping and total. */
  datatype View = EmptyCart | Summary(subtotal: int, shipping: int, total: int)

  function CheckoutView(cart: seq<CartItem>): (v: View)
    ensures v.EmptyCart? <==> cart == []
    ensures v.Summary? ==> v.subtotal == Subtotal(cart) && v.total == v.subtotal + v.shipping
    ensures v.Summary? ==> (v.shipping == 0 <==> Subtotal(cart) > FreeShippingAbove)
    ensures v.Summary? ==> v.shipping == Shipping(v.subtotal) && (v.shipping != 0 ==> v.shipping == ShippingFee)
  {
    if cart == [] then EmptyCart
    else Summary(Subtotal(cart), Shipping(Subtotal(cart)), Subtotal(cart) + Shipping(Subtotal(cart)))
  }

  /** The boundary: a subtotal of exactly 200 dollars still pays shipping,
      one cent more ships free. */
  lemma ShippingBoundary()
    ensures Shipping(20000) == 2500 && Shipping(20001) == 0
  {
  }

  // ---------------------------------------------------------------------
  // Name defaults

  /** `split(' ')`: the pieces between single spaces, empty pieces included. */
  function Split(s: string): (r: seq<string>)
    ensures |r| >= 1
    ensures forall t | t in r :: ' ' !in t
  {
    if s == [] then [""]
    else if s[0] == ' ' then [""] + Split(s[1..])
    else
      var rest := Split(s[1..]);
      [[s[0]] + rest[0]] + rest[1..]
  }

  /** Joins pieces with single spaces; the inverse of Split. */
  function Join(pieces: seq<string>): string
    requires |pieces| >= 1
  {
    if |pieces| == 1 then pieces[0] else pieces[0] + " " + Join(pieces[1..])
  }

  lemma {:induction false} JoinSplit(s: string)
    ensures Join(Split(s)) == s
  {
    if s != [] {
      JoinSplit(s[1..]);
      var rest := Split(s[1..]);
      if s[0] == ' ' {
        assert Split(s)[1..] == rest;
      } else {
        var r := Split(s);
        assert r[0] == [s[0]] + rest[0];
        if |rest| == 1 {
          assert Join(r) == r[0];
        } else {
          assert r[1..] == rest[1..];
          assert Join(r) == [s[0]] + (rest[0] + " " + Join(rest[1..]));
        }
      }
    }
  }

  lemma {:induction false} SplitJoin(pieces: seq<string>)
    requires |pieces| >= 1
    requires forall t | t in pieces :: ' ' !in t
    ensures Split(Join(pieces)) == pieces
    decreases |pieces|, |pieces[0]|
  {
    var head := pieces[0];
    if head == [] {
      if |pieces| > 1 {
        assert Join(pieces) == " " + Join(pieces[1..]);
        assert forall t | t in pieces[1..] :: t in pieces;
        SplitJoin(pieces[1..]);
        assert Join(pieces)[1..] == Join(pieces[1..]);
        assert [""] + pieces[1..] == pieces;
      }
    } else {
      assert head[0] in head;
      var shorter := [head[1..]] + pieces[1..];
      forall t | t in shorter ensures ' ' !in t {
        if t == head[1..] {
          assert forall c | c in t :: c in head;
        } else {
          assert t in pieces;
        }
      }
      SplitJoin(shorter);
      var s := Join(pieces);
      if |pieces| == 1 {
        assert s == head;
        assert Join(shorter) == head[1..];
      } else {
        assert shorter[1..] == pieces[1..];
        assert Join(shorter) == head[1..] + " " + Join(pieces[1..]);
      }
      assert s == [head[0]] + Join(shorter);
      assert s[1..] == Join(shorter);
      assert [head[0]] + head[1..] == head;
      assert [head] + pieces[1..] == pieces;
    }
  }

  /** The piece at `index`, or '' when the name has fewer pieces (`|| ''`). */
  function Piece(s: string, index: nat): string
  {
    var pieces := Split(s);
    if index < |pieces| then pieces[index] else ""
  }

  /** The first piece is the name up to its first space. */
  lemma {:induction false} FirstPiece(s: string)
    ensures ' ' !in Piece(s, 0)
    ensures |Piece(s, 0)| <= |s| && Piece(s, 0) == s[..|Piece(s, 0)|]
    ensures |Piece(s, 0)| < |s| ==> s[|Piece(s, 0)|] == ' '
  {
    var first := Piece(s, 0);
    assert first == Split(s)[0] && first in Split(s);
    if s != [] && s[0] != ' ' {
      FirstPiece(s[1..]);
      var rest := Piece(s[1..], 0);
      assert first == [s[0]] + rest;
      assert s[..|first|] == [s[0]] + s[1..][..|rest|];
    }
  }

  datatype ShippingForm = ShippingForm(firstName: string, lastName: string, address: string, city: string, postalCode: string)

  /** The form the page opens with: the first two pieces of the user's name,
      or '' without a user, and empty address fields. */
  function InitialForm(user: Option<User>): (f: ShippingForm)
    ensures user.None? ==> f.firstName == "" && f.lastName == ""
    ensures user.Some? ==> f.firstName == Piece(user.value.name, 0) && f.lastName == Piece(user.value.name, 1)
    ensures user.Some? && ' ' !in user.value.name ==> f.firstName == user.value.name && f.lastName == ""
    ensures f.address == "" && f.city == "" && f.postalCode == ""
  {
    if user.None? then ShippingForm("", "", "", "", "")
    else
      NoSpaceSingle(user.value.name);
      ShippingForm(Piece(user.value.name, 0), Piece(user.value.name, 1), "", "", "")
  }

  lemma {:induction false} NoSpaceSingle(s: string)
    ensures ' ' !in s ==> Split(s) == [s]
  {
    if s != [] && ' ' !in s {
      assert s[0] != ' ' && s[0] in s;
      assert forall c | c in s[1..] :: c in s;
      NoSpaceSingle(s[1..]);
      assert [s[0]] + s[1..] == s;
    }
  }

  /** A name of two words fills both fields. */
  lemma TwoWordName(first: string, last: string)
    requires ' ' !in first && ' ' !in last
    ensures Piece(first + " " + last, 0) == first
    ensures Piece(first + " " + last, 1) == last
  {
    assert Join([first, last]) == first + " " + last;
    SplitJoin([first, last]);
  }

  // ---------------------------------------------------------------------
  // Payment

  /** `handlePayment`, available only on the non-empty view: an empty address
      or city places no order; otherwise the (deferred) placeOrder runs. */
  method HandlePayment(store: Store, form: ShippingForm, orderId: string, date: string) returns (placed: bool)
    requires store.Persisted() && CheckoutView(store.cart).Summary?
    modifies store, store.storage
    ensures placed <==> form.address != "" && form.city != ""
    ensures !placed ==> store.State() == old(store.State()) && store.storage.entries == old(store.storage.entries)
    ensures placed ==> store.orders == [NewOrder(old(store.cart), orderId, date)] + old(store.orders) && store.cart == []
    ensures placed ==> store.orders[0].total == old(CheckoutView(store.cart)).subtotal
    ensures placed ==> store.products == old(store.products) && store.user == old(store.user)
    ensures placed ==> store.storage.entries == old(store.storage.entries)[OrdersKey := OrdersBlob(store.orders)][CartKey := CartBlob([])]
    ensures store.isCartOpen == old(store.isCartOpen)
    ensures store.Persisted()
  {
    if form.address == "" || form.city == "" {
      return false;
    }
    store.PlaceOrder(orderId, date);
    placed := true;
  }
}
