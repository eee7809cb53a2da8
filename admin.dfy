// The admin dashboard (pages/AdminDashboard.tsx): the statistics derived
// from the order history, the access guard, and the add-product form.
module Admin {
  import opened Types
  import opened MockData
  import opened CartOps
  import opened StoreEngine
  import opened Persistence

  /** Sum of the order totals (the `reduce` behind totalRevenue). */
  function Revenue(orders: seq<Order>): int
  {
    if orders == [] then 0 else orders[0].total + Revenue(orders[1..])
  }

  /** 1 + floor(0.8 * n) for a non-empty history, computed exactly as 4n/5. */
  function ActiveCustomers(totalOrders: nat): (r: nat)
    ensures totalOrders == 0 ==> r == 0
    ensures totalOrders > 0 ==> 1 <= r <= totalOrders
    ensures totalOrders > 0 ==> 5 * (r - 1) <= 4 * totalOrders < 5 * r
  {
    if totalOrders > 0 then 1 + (4 * totalOrders) / 5 else 0
  }

  function Stats(orders: seq<Order>): (s: DashboardStats)
    ensures s.totalRevenue == Revenue(orders)
    ensures s.totalOrders == |orders|
    ensures s.activeCustomers == ActiveCustomers(|orders|)
    ensures s.growth == (if orders == [] then 0 else 100)
  {
    DashboardStats(Revenue(orders), |orders|, ActiveCustomers(|orders|), if |orders| > 0 then 100 else 0)
  }

  /** An empty history gives the all-zero statistics of the mock data. */
  lemma StatsOfNoOrders()
    ensures Stats([]) == MockStats
  {
  }

  lemma {:induction false} RevenueAppend(a: seq<Order>, b: seq<Order>)
    ensures Revenue(a + b) == Revenue(a) + Revenue(b)
  {
    if a != [] {
      assert (a + b)[0] == a[0];
      assert (a + b)[1..] == a[1..] + b;
      RevenueAppend(a[1..], b);
    } else {
      assert a + b == b;
    }
  }

  /** Placing an order raises the revenue by the cart's subtotal and the
      order count by one. */
  lemma PlaceOrderStats(orders: seq<Order>, cart: seq<CartItem>, id: string, date: string)
    ensures var after := Stats([NewOrder(cart, id, date)] + orders);
      && after.totalRevenue == Stats(orders).totalRevenue + Subtotal(cart)
      && after.totalOrders == Stats(orders).totalOrders + 1
      && after.growth == 100
  {
    RevenueAppend([NewOrder(cart, id, date)], orders);
  }

  /** The dashboard redirects unless the session user is an admin. */
  function Redirects(user: Option<User>): (r: bool)
    ensures r <==> user.None? || user.value.role != Admin
  {
    !IsAdmin(user)
  }

  // ---------------------------------------------------------------------
  // Add-product form

  /** A numeric input after `parseFloat`: a number (in cents) or NaN. */
  datatype Number = Value(n: int) | NaN

  predicate Falsy(x: Number)
  {
    x == NaN || x == Value(0)
  }

  /** `Number(x) || 0`. */
  function OrZero(x: Number): (r: int)
    ensures Falsy(x) ==> r == 0
    ensures !Falsy(x) ==> r == x.n
  {
    if Falsy(x) then 0 else x.n
  }

  datatype ProductForm = ProductForm(name: string, category: string, price: Number, stock: Number, description: string, image: string)

  /** The form after a successful submit and when the page opens. */
  const EmptyForm: ProductForm := ProductForm("", "Men", Value(0), Value(0), "", "")

  const DefaultDescription: string := "No description provided."
  const NewProductFeatures: seq<string> := ["New Arrival", "Premium Quality"]

  /** A submit is accepted when the name is non-empty and the price truthy. */
  predicate Accepts(form: ProductForm)
  {
    form.name != "" && !Falsy(form.price)
  }

  /** The product a submit adds. The id comes from the clock and the
      fallback image from a random number; both are passed in. */
  function BuildProduct(form: ProductForm, id: string, randomImage: string): (p: Product)
    requires Accepts(form)
    ensures p.id == id && p.name == form.name && p.price == form.price.n
    ensures p.rating == 50 && p.reviews == 0 && p.features == NewProductFeatures
    ensures p.category == (if form.category == "" then "Men" else form.category)
    ensures p.description == (if form.description == "" then DefaultDescription else form.description)
    ensures p.image == (if form.image == "" then randomImage else form.image)
    ensures p.stock == OrZero(form.stock) && (Falsy(form.stock) ==> p.stock == 0)
  {
    Product(
      id,
      if form.name == "" then "New Product" else form.name,
      OrZero(form.price),
      if form.category == "" then "Men" else form.category,
      if form.image == "" then randomImage else form.image,
      if form.description == "" then DefaultDescription else form.description,
      50,
      0,
      OrZero(form.stock),
      NewProductFeatures)
  }

  /** The state the add-product modal keeps on the page. */
  class AddProductModal {
    var form: ProductForm
    var isOpen: bool

    constructor ()
      ensures form == EmptyForm && !isOpen
    {
      form := EmptyForm;
      isOpen := false;
    }

    /** `handleAddSubmit`: a rejected submit changes nothing; an accepted
        one prepends the built product to the catalog, closes the modal and
        resets the form. */
    method HandleAddSubmit(store: Store, id: string, randomImage: string) returns (added: bool)
      requires store.Persisted()
      modifies this, store, store.storage
      ensures added <==> Accepts(old(form))
      ensures !added ==> form == old(form) && isOpen == old(isOpen)
      ensures !added ==> store.State() == old(store.State()) && store.storage.entries == old(store.storage.entries)
      ensures added ==> store.products == [BuildProduct(old(form), id, randomImage)] + old(store.products)
      ensures added ==> form == EmptyForm && !isOpen
      ensures added ==> store.storage.entries == old(store.storage.entries)[ProductsKey := ProductsBlob(store.products)]
      ensures store.cart == old(store.cart) && store.orders == old(store.orders) && store.user == old(store.user)
      ensures store.isCartOpen == old(store.isCartOpen)
      ensures store.Persisted()
    {
      if !Accepts(form) {
        return false;
      }
      var p := BuildProduct(form, id, randomImage);
      store.AddProduct(p);
      isOpen := false;
      form := EmptyForm;
      added := true;
    }
  }

  /** The worked scenario: as admin, add "Scarf" at 50 dollars; the catalog
      gains one entry with the default rating and features. */
  method ScarfScenario(store: Store, modal: AddProductModal, id: string, image: string)
    requires store.Persisted()
    requires modal.form == EmptyForm.(name := "Scarf", price := Value(5000))
    modifies store, store.storage, modal
    ensures |store.products| == |old(store.products)| + 1
    ensures store.products[0].name == "Scarf" && store.products[0].rating == 50
    ensures store.products[0].features != []
    ensures !Redirects(store.user)
  {
    store.Login(UserRole.Admin);
    var added := modal.HandleAddSubmit(store, id, image);
    assert added;
  }
}
