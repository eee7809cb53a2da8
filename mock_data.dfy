// The canonical identities and defaults (services/mockData.ts).
module MockData {
  import opened Types

  /** The default catalog is empty: the store owner adds the products. */
  const MockProducts: seq<Product> := []

  const MockUser: User := User(
    "u1", "Demo Customer", "customer@example.com", Customer,
    Some("https://ui-avatars.com/api/?name=Demo+Customer"))

  const MockAdmin: User := User(
    "a1", "Store Owner", "admin@primecart.ai", Admin,
    Some("https://ui-avatars.com/api/?name=Store+Owner"))

  const MockStats: DashboardStats := DashboardStats(0, 0, 0, 0)

  /** The identity `login` installs for a role: the admin for Admin, the
      demo customer for every other role, Guest included. */
  function CanonicalUser(role: UserRole): (u: User)
    ensures u.role == (if role == Admin then Admin else Customer)
    ensures u.id == (if role == Admin then "a1" else "u1")
    ensures u == MockAdmin || u == MockUser
  {
    if role == Admin then MockAdmin else MockUser
  }

  /** The two canonical identities are distinct and have the roles their
      names promise. */
  lemma CanonicalIdentities()
    ensures MockUser.role == Customer && MockAdmin.role == Admin
    ensures MockUser.id != MockAdmin.id
    ensures MockProducts == []
    ensures MockStats.totalRevenue == MockStats.totalOrders == MockStats.activeCustomers == MockStats.growth == 0
  {
  }
}
