// The record shapes of the storefront (types.ts).
// Money is held in integer cents and ratings in tenths of a star, so that the
// arithmetic of totals is exact.
module Types {

  datatype Option<+T> = None | Some(value: T)

  datatype Result<+T, +E> = Ok(value: T) | Err(error: E)

  /** The three roles a session user can have. */
  datatype UserRole = Guest | Customer | Admin

  /** A catalog entry; `price` is in cents, `rating` in tenths of a star. */
  datatype Product = Product(
    id: string,
    name: string,
    price: int,
    category: string,
    image: string,
    description: string,
    rating: int,
    reviews: int,
    stock: int,
    features: seq<string>)

  /** A product snapshot together with how many of it are in the cart. */
  datatype CartItem = CartItem(product: Product, quantity: int)
  {
    function Id(): string { product.id }

    /** What this line of the cart costs: price times quantity. */
    function LineTotal(): int { product.price * quantity }
  }

  /** The session user; only the avatar is optional. */
  datatype User = User(id: string, name: string, email: string, role: UserRole, avatar: Option<string>)

  datatype OrderStatus = Pending | Shipped | Delivered

  /** A placed order: a frozen copy of the cart and its total in cents. */
  datatype Order = Order(id: string, date: string, total: int, status: OrderStatus, items: seq<CartItem>)

  datatype DashboardStats = DashboardStats(totalRevenue: int, totalOrders: int, activeCustomers: int, growth: int)

  predicate IsAdmin(user: Option<User>)
  {
    user.Some? && user.value.role == Admin
  }
}
