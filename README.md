# PrimeCart store engine, modelled in Dafny

PrimeCart is a client-side storefront: a catalog, a cart, a checkout and an
admin panel, all kept in the browser's local storage. This project models its
store engine, the `StoreProvider` that owns the catalog, the cart, the order
history, the session user and the cart-panel flag. The model also covers the
pure derivations the pages compute from that state: the cart totals and the
free-shipping rule, the admin statistics and the add-product form, and the
shop's search, filter and sort pipeline.

Layout, one module per source file:

- `types.dfy` (`Types`): the records of `types.ts` as datatypes. `Option` and
  `Result` are defined here too.
- `mock_data.dfy` (`MockData`): the empty default catalog, the demo customer,
  the admin identity and the all-zero statistics.
- `persistence.dfy` (`Persistence`): local storage as a class holding a map
  from key to stored value. It also holds the load-or-default rule for the
  four keys `prime_products`, `prime_cart`, `prime_orders` and `prime_user`.
- `cart_ops.dfy` (`CartOps`): the list transitions behind the cart
  operations (bump or append, filter by id, set a quantity), the subtotal and
  item count, and the cart invariant (distinct ids, quantities at least 1).
- `store_engine.dfy` (`StoreEngine`): the `Store` class. Its five fields are
  the provider's state cells, and there is one method per operation. Each
  method says what its cell becomes, that the other cells stay as they were,
  and which storage key it writes. `Persisted()` says that storage holds the
  current value of every persisted cell, and every method keeps it.
- `shop.dfy`, `checkout.dfy`, `admin.dfy`, `layout.dfy`: the logic of the
  four pages and of the frame.

Modelling choices:

- Money is integer cents and ratings are integer tenths of a star. So a
  rating of 5.0 is 50, the shipping threshold of 200 dollars is 20000, the
  shipping fee of 25 dollars is 2500, and the default price range
  [0, 1000] dollars is (0, 100000).
- `activeCustomers` is `1 + floor(totalOrders * 0.8)` in the source. The model
  computes it as `1 + (4 * totalOrders) / 5`. The two agree for every order
  count a browser can hold, because the double nearest 0.8 lies just above 0.8.
- A stored value is kept already decoded (`Blob`). An absent key or the empty
  string loads that key's default. A value of the right kind loads as itself.
  Anything else is `Err(CannotDecode(key))`, which stands for the exception
  `JSON.parse` throws. The `Store` constructor requires that all four keys
  load, because the source's provider throws during start-up otherwise.
- The clock values (`Date.now()` ids, ISO dates) and the random image URL are
  method parameters. Nothing claims that ids are unique.
- The order that `placeOrder` records has `total` equal to the cart subtotal
  without shipping. The checkout page shows and charges subtotal plus
  shipping. `Checkout.HandlePayment` states the recorded total as written in
  the source.

## Model

| member | source | states |
|---|---|---|
| `MockData.CanonicalUser` | context/StoreContext.tsx:108-114 | login installs the admin identity (id a1, role ADMIN) for ADMIN and the demo customer (id u1, role CUSTOMER) for every other role, GUEST included |
| `MockData.CanonicalIdentities` | services/mockData.ts:4-28 | the default catalog is empty, MOCK_USER is a CUSTOMER, MOCK_ADMIN an ADMIN with a different id, every MOCK_STATS field is 0 |
| `Persistence.LocalStorage.SetItem` | context/StoreContext.tsx:51-65 | a save overwrites the value under its key and leaves every other key alone |
| `Persistence.Saved` | context/StoreContext.tsx:28-29 | a stored value counts only when present and non-empty (the truthiness test on `saved`) |
| `Persistence.LoadEmpty` | context/StoreContext.tsx:27-46 | an empty medium loads the empty catalog, an empty cart, no orders and the demo customer |
| `Persistence.LoadOrDefault` | context/StoreContext.tsx:27-46 | each key falls back to its own default when its value is missing, whatever the other keys hold |
| `Persistence.SaveThenLoad` | context/StoreContext.tsx:27-65 | saving all four cells and reloading gives back the same state, including empty collections and a null user |
| `Persistence.RestartReloads` | context/StoreContext.tsx:43-46 | a medium that holds the current value of every cell reloads exactly that state, so a null user saved after logout reloads as null |
| `Persistence.SaveIsolated` | context/StoreContext.tsx:55-57 | saving the cart changes what the cart key loads and nothing that the other keys load |
| `CartOps.Rewrite` | context/StoreContext.tsx:71-75 | the `map` over the cart keeps its length, changes every item with the id and no other item |
| `CartOps.AddToCartExisting` | context/StoreContext.tsx:69-76 | adding a product already in a well-formed cart adds 1 to that item's quantity and leaves the length and every other item unchanged |
| `CartOps.AddToCartNew` | context/StoreContext.tsx:77 | adding a product not in the cart appends it with quantity 1 at the end |
| `CartOps.AddToCartPreserves` | context/StoreContext.tsx:67-80 | addToCart keeps ids distinct and quantities at least 1, and the product is in the cart afterwards |
| `CartOps.AddToCartCount` | context/StoreContext.tsx:67-80 | on a well-formed cart, addToCart raises the item count by exactly 1 |
| `CartOps.AddToCartSubtotal` | context/StoreContext.tsx:67-80 | addToCart raises the subtotal by one unit price: the new product's price, or the price of the snapshot already in the cart |
| `CartOps.RepeatedAdd` | context/StoreContext.tsx:67-80 | adding the same product n times to an empty cart gives exactly one item for it, with quantity n |
| `CartOps.WithoutCounts` | context/StoreContext.tsx:82-84 | removeFromCart drops every item with the id and keeps every copy of every other item |
| `CartOps.WithoutAppend` | context/StoreContext.tsx:83 | removal distributes over concatenation, so the survivors keep their original order |
| `CartOps.WithoutSingle` | context/StoreContext.tsx:83 | on one item, removal keeps it exactly when its id differs |
| `CartOps.WithoutMembers` | context/StoreContext.tsx:82-84 | an item survives removal exactly when it was in the cart with another id, and the id is gone afterwards |
| `CartOps.WithoutMissing` | context/StoreContext.tsx:82-84 | removing an id that is not in the cart is a no-op |
| `CartOps.WithoutPreserves` | context/StoreContext.tsx:82-84 | removeFromCart keeps the cart well-formed |
| `CartOps.UpdateQuantitySpec` | context/StoreContext.tsx:86-91 | a quantity below 1 leaves the cart unchanged; otherwise exactly the items with the id get the new quantity; an unknown id changes nothing |
| `CartOps.UpdateQuantityPreserves` | context/StoreContext.tsx:86-91 | updateQuantity keeps the cart well-formed |
| `CartOps.UpdateQuantityKeepsIds` | context/StoreContext.tsx:86-91 | updateQuantity never adds or removes an id |
| `CartOps.ItemCountAppend` | components/Layout.tsx:17 | the item count of two carts put together is the sum of their counts |
| `CartOps.SubtotalAppend` | pages/Checkout.tsx:18 | the subtotal of two carts put together is the sum of their subtotals |
| `CartOps.ItemCountBound` | components/Layout.tsx:17 | on a well-formed cart the item count is at least the number of lines, and it is positive exactly when the cart is non-empty |
| `CartOps.SubtotalNonNegative` | pages/Checkout.tsx:18 | with non-negative prices and quantities the subtotal is non-negative |
| `StoreEngine.NewOrder` | context/StoreContext.tsx:96-102 | the new order has status Pending, the cart as its items, and total equal to the sum of price times quantity over the cart |
| `StoreEngine.Store.constructor` | context/StoreContext.tsx:27-65 | each cell starts from its stored value or its default, the panel is closed, and the first render saves all four cells |
| `StoreEngine.Store.SetCart` | context/StoreContext.tsx:55-57 | setting the cart saves it under its key and nothing else changes |
| `StoreEngine.Store.AddToCart` | context/StoreContext.tsx:67-80 | the cart becomes the bumped or appended cart, the panel opens, only the cart key is written, and a well-formed cart stays well-formed |
| `StoreEngine.Store.RemoveFromCart` | context/StoreContext.tsx:82-84 | the cart loses exactly the items with the id, only the cart key is written, and well-formedness is kept |
| `StoreEngine.Store.UpdateQuantity` | context/StoreContext.tsx:86-91 | a quantity below 1 changes nothing and writes nothing; otherwise the matching items get the quantity and the cart is saved |
| `StoreEngine.Store.ClearCart` | context/StoreContext.tsx:93 | the cart becomes empty and is saved |
| `StoreEngine.Store.PlaceOrder` | context/StoreContext.tsx:95-106 | exactly one order is prepended, its total is the subtotal of the cart at call time and its items are that cart, older orders are unchanged, the cart ends empty, and both keys are saved |
| `StoreEngine.Store.Login` | context/StoreContext.tsx:108-114 | the user becomes MOCK_ADMIN for ADMIN and MOCK_USER for any other role, and the user key is saved |
| `StoreEngine.Store.Logout` | context/StoreContext.tsx:116 | the user becomes null, null is saved, and the user key then loads as null |
| `StoreEngine.Store.AddProduct` | context/StoreContext.tsx:118-120 | the product is prepended without an id check; cart and orders are untouched |
| `StoreEngine.Store.DeleteProduct` | context/StoreContext.tsx:122-124 | every product with the id is removed and all others kept; cart and orders are untouched |
| `StoreEngine.Store.SetIsCartOpen` | context/StoreContext.tsx:48 | the panel flag is set, no persisted cell changes, no key is written, and storage stays in step with the state exactly when it was before |
| `StoreEngine.WithoutProductMembers` | context/StoreContext.tsx:123 | a product survives deleteProduct exactly when it was in the catalog with another id |
| `StoreEngine.WithoutProductCounts` | context/StoreContext.tsx:123 | deleteProduct drops every copy of the products with the id and keeps every copy of every other product |
| `StoreEngine.DeleteThenAddStale` | context/StoreContext.tsx:118-124 | adding a stale snapshot of a deleted product to the cart puts it in the cart but not back into the catalog |
| `StoreEngine.CartScenario` | context/StoreContext.tsx:67-91 | add A twice gives quantity 2, quantity 0 is rejected, and removing A empties the cart |
| `Shop.KeepCounts` | pages/Shop.tsx:34-47 | one filter stage keeps every copy of the products that pass it and drops all others |
| `Shop.KeepAppend` | pages/Shop.tsx:34-47 | a filter stage keeps catalog order: it distributes over concatenation |
| `Shop.FilteredCounts` | pages/Shop.tsx:28-47 | a product appears after the three filters exactly as often as in the catalog when it matches the lower-cased query, the category (unless 'All') and the inclusive price range, and never otherwise |
| `Shop.FilteredAppend` | pages/Shop.tsx:28-47 | the three filters together keep catalog order |
| `Shop.InitialFilter` | pages/Shop.tsx:10-14 | with the category taken from its parameter (or 'All') and the default [0, 1000] dollar range, a product is shown exactly when it is in the catalog, matches the search, has the parameter's category unless that is 'All', and costs 0 to 100000 cents |
| `Shop.SortInPlace` | pages/Shop.tsx:49-56 | the in-place sort leaves the array ordered by the chosen comparator and a permutation of what it was |
| `Shop.FilteredProducts` | pages/Shop.tsx:28-58 | every result comes from the catalog and is selected, every selected product appears as often as in the catalog, price-low gives non-decreasing prices, price-high non-increasing prices, rating non-increasing ratings, and any other key keeps catalog order |
| `Shop.CategoryChangeParams` | pages/Shop.tsx:61-71 | the params carry the category exactly when it is not 'All', and the current search exactly when there is one |
| `Checkout.Shipping` | pages/Checkout.tsx:19 | shipping is 0 exactly when the subtotal is strictly above 200 dollars, otherwise 25 dollars |
| `Checkout.ShippingBoundary` | pages/Checkout.tsx:19 | a subtotal of exactly 200 dollars pays shipping and one cent more ships free |
| `Checkout.CheckoutView` | pages/Checkout.tsx:18-20 | an empty cart shows the empty view; otherwise subtotal is the cart sum, shipping is the fee rule's value (0 strictly above 200 dollars, else exactly 25 dollars), and total is subtotal plus shipping |
| `Checkout.Split` | pages/Checkout.tsx:11-12 | splitting on spaces gives at least one piece and no piece contains a space |
| `Checkout.JoinSplit` | pages/Checkout.tsx:11-12 | joining the pieces with single spaces gives back the name |
| `Checkout.SplitJoin` | pages/Checkout.tsx:11-12 | splitting a space-joined list of space-free pieces gives back the pieces |
| `Checkout.FirstPiece` | pages/Checkout.tsx:11 | the first-name default is the name up to its first space |
| `Checkout.NoSpaceSingle` | pages/Checkout.tsx:11-12 | a name without a space splits into itself alone |
| `Checkout.TwoWordName` | pages/Checkout.tsx:11-12 | a two-word name fills the first and last name fields with its two words |
| `Checkout.InitialForm` | pages/Checkout.tsx:10-16 | without a user both names are ''; with one, the names are the first and second `split(' ')` pieces of the user's name, '' when a piece is missing, so a one-word name fills the first name only; address, city and postal code start empty |
| `Checkout.HandlePayment` | pages/Checkout.tsx:22-39 | an empty address or city places no order and changes nothing; otherwise one order is prepended, whose total is the shown subtotal, the cart ends empty, catalog and user stay, and exactly the orders and cart keys are written; the panel flag never changes |
| `Admin.ActiveCustomers` | pages/AdminDashboard.tsx:30 | 0 for no orders, otherwise 1 + floor(0.8 n), which lies between 1 and n |
| `Admin.Stats` | pages/AdminDashboard.tsx:26-38 | totalRevenue is the sum of the order totals, totalOrders is the number of orders, activeCustomers follows the rule above, and growth is 100 exactly when there is an order |
| `Admin.StatsOfNoOrders` | pages/AdminDashboard.tsx:26-38 | no orders give the all-zero MOCK_STATS |
| `Admin.RevenueAppend` | pages/AdminDashboard.tsx:27 | the revenue of two histories put together is the sum of their revenues |
| `Admin.PlaceOrderStats` | pages/AdminDashboard.tsx:27-28 | placing an order raises the revenue by the cart subtotal and the order count by 1, and sets growth to 100 |
| `Admin.Redirects` | pages/AdminDashboard.tsx:63-65 | the dashboard redirects exactly when there is no user or the user is not an ADMIN |
| `Admin.OrZero` | pages/AdminDashboard.tsx:91 | `Number(x) \|\| 0` is 0 for 0 and NaN and the number otherwise |
| `Admin.BuildProduct` | pages/AdminDashboard.tsx:82-93 | an accepted product has rating 5.0, 0 reviews and the two default features, and falls back to category 'Men', the default description, the random image and stock 0 |
| `Admin.AddProductModal.constructor` | pages/AdminDashboard.tsx:15-23 | the modal starts closed with the empty form (category 'Men', price 0, stock 0) |
| `Admin.AddProductModal.HandleAddSubmit` | pages/AdminDashboard.tsx:75-98 | an empty name or a falsy price adds nothing and changes nothing; otherwise the built product is prepended, only the products key is written, the modal closes and the form resets; cart, orders, user and the panel flag never change |
| `Admin.ScarfScenario` | pages/AdminDashboard.tsx:75-98 | as admin, adding "Scarf" at 50 dollars grows the catalog by one entry with the default rating and features |
| `Layout.PriceFoldSubtotal` | components/Layout.tsx:16 | the panel's left fold of line totals from any start value equals that value plus the recursive subtotal |
| `Layout.TotalCartPrice` | components/Layout.tsx:16 | the cart panel's fold from 0 is 0 for an empty cart and otherwise the same value as the checkout subtotal |
| `Layout.CountFoldItemCount` | components/Layout.tsx:17 | the badge's left fold of quantities from any start value equals that value plus the item count |
| `Layout.CartItemCount` | components/Layout.tsx:17 | the badge's fold from 0 is the item count of the cart |
| `Layout.CartItemCountBound` | components/Layout.tsx:17 | on a well-formed cart the badge count is at least the number of lines |
| `Layout.ShowsBadge` | components/Layout.tsx:142 | the badge shows exactly when the item count is positive, for every cart |
| `Layout.BadgeIffNonEmpty` | components/Layout.tsx:142 | on a well-formed cart the badge shows exactly when the cart is non-empty |
| `Layout.MinusNeverRemoves` | components/Layout.tsx:298 | the "-" button keeps every item, leaves the cart unchanged at quantity 1, and keeps it well-formed |
| `Layout.PlusIsAdd` | components/Layout.tsx:300 | the "+" button gives the same cart as adding the item's product again |
| `Layout.Frame.constructor` | components/Layout.tsx:9-11 | the menu and search box start closed with an empty query |
| `Layout.Frame.HandleRoleSwitch` | components/Layout.tsx:19-28 | an ADMIN switches to MOCK_USER and goes home; anyone else, no user included, becomes MOCK_ADMIN and goes to the dashboard; admin mode toggles, only the user key is written, catalog, cart, orders and the panel flag stay, and the menu closes |
| `Layout.Frame.HandleSearch` | components/Layout.tsx:34-42 | a blank query changes nothing; otherwise the shop opens with the query, and the query is cleared and the search box and menu close |

The shapes of `types.ts` (three roles; the Product, CartItem, User and Order
records; the three order statuses) are the datatypes of `Types`. They carry
no contract of their own.

## Left out

- services/geminiService.ts, App.tsx, pages/Home.tsx, pages/ProductDetail.tsx and components/ProductCard.tsx are not part of this model: they are network calls to a foreign library, routing and presentation.
- The monthly chart grouping of the dashboard (pages/AdminDashboard.tsx:41-54) depends on the locale's month names and is not modelled.
- The text encoding of stored values is not modelled. A stored text that decodes to a value of another shape (for example `null` under the products key) is treated as undecodable. The source would load it as an ill-typed state.
- The save effects run after React commits a render; the model writes the key right after the cell is set. The order of the writes within one render is not significant.
- The `setTimeout` around `placeOrder`, the stale cart it captures, the `isProcessing` flag, the alerts and the navigation after payment are not modelled; `placeOrder` runs at once with the cart of the call.
- Prices are exact integer cents in the model, while the source adds fractional dollar prices in binary floating point, whose sums round at any size. The visible consequence is the free-shipping test at pages/Checkout.tsx:19: a cart holding one each of 136.87, 42.67 and 20.46 dollars sums to 200.00000000000003 in double arithmetic and ships free, while the model's subtotal is exactly 20000 cents and pays 2500. The same rounding reaches the recorded order total, `totalCartPrice` and `totalRevenue`.
- `Shop.Lower` lower-cases ASCII letters only, where `toLowerCase` covers all of Unicode; `Layout.Blank` knows six ASCII whitespace characters, where `trim` also removes Unicode spaces.
- Shop.SortInPlace: does not state that the sort is stable, because stability is not needed for the order properties it proves. The JavaScript sort is stable.
- `clearFilters` and the category-syncing effect of pages/Shop.tsx are not modelled; they only reset page state.
- The URL encoding of the search query in `handleSearch` is not modelled.
- `handleInputChange` (the `parseFloat` of typed text) is not modelled; the form holds already-parsed numbers.
