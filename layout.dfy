// The page frame (components/Layout.tsx): the cart badge and panel totals,
// the role switch, the search box and the cart panel's quantity buttons.
module Layout {
  import opened Types
  import opened MockData
  import opened CartOps
  import opened StoreEngine
  import opened Persistence
  import Admin
  import Checkout

  /** The panel's `reduce` over the cart: a left fold of the line totals
      starting from `acc`. */
  function PriceFold(acc: int, cart: seq<CartItem>): int
    decreases |cart|
  {
    if cart == [] then acc else PriceFold(acc + cart[0].LineTotal(), cart[1..])
  }

  lemma {:induction false} PriceFoldSubtotal(acc: int, cart: seq<CartItem>)
    ensures PriceFold(acc, cart) == acc + Subtotal(cart)
    decreases |cart|
  {
    if cart != [] {
      PriceFoldSubtotal(acc + cart[0].LineTotal(), cart[1..]);
    }
  }

  /** `totalCartPrice` in the cart panel: the fold from 0 gives the same
      value as the checkout page's subtotal. */
  function TotalCartPrice(cart: seq<CartItem>): (r: int)
    ensures cart == [] ==> r == 0
    ensures cart != [] ==> r == Checkout.CheckoutView(cart).subtotal
  {
    PriceFoldSubtotal(0, cart);
    PriceFold(0, cart)
  }

  /** The badge's `reduce`: a left fold of the quantities. */
  function CountFold(acc: int, cart: seq<CartItem>): int
    decreases |cart|
  {
    if cart == [] then acc else CountFold(acc + cart[0].quantity, cart[1..])
  }

  lemma {:induction false} CountFoldItemCount(acc: int, cart: seq<CartItem>)
    ensures CountFold(acc, cart) == acc + ItemCount(cart)
    decreases |cart|
  {
    if cart != [] {
      CountFoldItemCount(acc + cart[0].quantity, cart[1..]);
    }
  }

  /** `cartItemCount`: the number shown on the cart badge, the fold from 0. */
  function CartItemCount(cart: seq<CartItem>): (r: int)
    ensures r == ItemCount(cart)
  {
    CountFoldItemCount(0, cart);
    CountFold(0, cart)
  }

  /** On a well-formed cart the badge counts at least one per line. */
  lemma CartItemCountBound(cart: seq<CartItem>)
    requires WellFormed(cart)
    ensures CartItemCount(cart) >= |cart|
  {
    ItemCountBound(cart);
  }

  /** The badge is shown only for a positive count. */
  function ShowsBadge(cart: seq<CartItem>): (r: bool)
    ensures r <==> ItemCount(cart) > 0
  {
    CartItemCount(cart) > 0
  }

  /** On a well-formed cart the badge shows exactly when the cart has an item. */
  lemma BadgeIffNonEmpty(cart: seq<CartItem>)
    requires WellFormed(cart)
    ensures ShowsBadge(cart) <==> cart != []
  {
    ItemCountBound(cart);
  }

  /** The cart panel's "-" button asks for one less, which the store rejects
      at quantity 1: the button never removes an item. */
  lemma MinusNeverRemoves(cart: seq<CartItem>, k: int)
    requires WellFormed(cart) && 0 <= k < |cart|
    ensures var r := UpdateQuantity(cart, cart[k].Id(), cart[k].quantity - 1);
      && |r| == |cart|
      && InCart(r, cart[k].Id())
      && (cart[k].quantity == 1 ==> r == cart)
      && WellFormed(r)
  {
    var r := UpdateQuantity(cart, cart[k].Id(), cart[k].quantity - 1);
    UpdateQuantityKeepsIds(cart, cart[k].Id(), cart[k].quantity - 1, cart[k].Id());
    UpdateQuantityPreserves(cart, cart[k].Id(), cart[k].quantity - 1);
  }

  /** The "+" button asks for one more; on a well-formed cart that is the
      same as adding the item's product again, apart from opening the panel. */
  lemma PlusIsAdd(cart: seq<CartItem>, k: int)
    requires WellFormed(cart) && 0 <= k < |cart|
    ensures UpdateQuantity(cart, cart[k].Id(), cart[k].quantity + 1) == AddToCart(cart, cart[k].product)
  {
    var id := cart[k].Id();
    assert InCart(cart, id);
    var a := UpdateQuantity(cart, id, cart[k].quantity + 1);
    var b := AddToCart(cart, cart[k].product);
    assert |a| == |b|;
    forall i | 0 <= i < |a| ensures a[i] == b[i] {
      if i != k { assert cart[i].Id() != id || i == k; }
    }
  }

  /** A query is blank when `trim()` leaves nothing. */
  predicate IsSpace(c: char)
  {
    c == ' ' || c == '\t' || c == '\n' || c == '\r' || c == '\U{B}' || c == '\U{C}'
  }

  predicate Blank(s: string)
  {
    forall i | 0 <= i < |s| :: IsSpace(s[i])
  }

  /** Where a handler sends the browser. */
  datatype Route = Home | AdminPage | ShopSearch(query: string)

  /** The frame's own state: the mobile menu, the search box and its text. */
  class Frame {
    var isMobileMenuOpen: bool
    var isSearchOpen: bool
    var searchQuery: string

    constructor ()
      ensures !isMobileMenuOpen && !isSearchOpen && searchQuery == ""
    {
      isMobileMenuOpen := false;
      isSearchOpen := false;
      searchQuery := "";
    }

    /** `handleRoleSwitch`: an admin switches to the customer identity and
        goes home; anyone else, no user included, becomes the admin and goes
        to the dashboard. Either way admin mode toggles. */
    method HandleRoleSwitch(store: Store) returns (route: Route)
      requires store.Persisted()
      modifies this, store, store.storage
      ensures old(IsAdmin(store.user)) ==> store.user == Some(MockUser) && route == Home
      ensures !old(IsAdmin(store.user)) ==> store.user == Some(MockAdmin) && route == AdminPage
      ensures IsAdmin(store.user) <==> !old(IsAdmin(store.user))
      ensures Admin.Redirects(store.user) <==> route == Home
      ensures store.products == old(store.products) && store.cart == old(store.cart) && store.orders == old(store.orders)
      ensures store.isCartOpen == old(store.isCartOpen)
      ensures store.storage.entries == old(store.storage.entries)[UserKey := UserBlob(store.user)]
      ensures !isMobileMenuOpen && isSearchOpen == old(isSearchOpen) && searchQuery == old(searchQuery)
      ensures store.Persisted()
    {
      if IsAdmin(store.user) {
        store.Login(Customer);
        route := Home;
      } else {
        store.Login(UserRole.Admin);
        route := AdminPage;
      }
      isMobileMenuOpen := false;
    }

    /** `handleSearch`: a blank query does nothing; otherwise the shop opens
        with the query, and the box is cleared and closed with the menu. */
    method HandleSearch() returns (route: Option<Route>)
      modifies this
      ensures Blank(old(searchQuery)) ==> route == None
      ensures Blank(old(searchQuery)) ==>
        isMobileMenuOpen == old(isMobileMenuOpen) && isSearchOpen == old(isSearchOpen) && searchQuery == old(searchQuery)
      ensures !Blank(old(searchQuery)) ==> route == Some(ShopSearch(old(searchQuery)))
      ensures !Blank(old(searchQuery)) ==> !isMobileMenuOpen && !isSearchOpen && searchQuery == ""
    {
      if Blank(searchQuery) {
        return None;
      }
      route := Some(ShopSearch(searchQuery));
      isSearchOpen := false;
      searchQuery := "";
      isMobileMenuOpen := false;
    }
  }
}
