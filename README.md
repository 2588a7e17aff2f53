# Storefront model

A Dafny model of the client-side core of a small clothing storefront. The
core is the single page `BritneyStore` (src/app/page.tsx). It keeps a
catalog, a per-user cart, a checkout that turns the cart into an order, an
order history and an admin console over products and users. All of its data
lives in five tables of a hosted database: products, users, cart_items,
orders and order_items. The records follow src/lib/supabase.ts.

The model has these parts:

- `Entities`: the records of the five tables. Identifiers are naturals,
  prices are exact reals, and timestamps are replaced by table order. The
  store selects products, orders and users newest first, so those tables
  are kept with the newest row first.
- `Pricing`: the unit price (`discount_price || price || 0`), `cartTotal`,
  and the order lines that checkout writes, with their captured prices.
- `Catalog`: `filteredProducts`, a case-insensitive substring search and a
  category match.
- `Admin`: the dashboard's revenue and counts, and the order status labels.
- `CartTable` and `StoreTables`: the select, insert, update and delete
  statements the page sends, as functions on the tables.
- `Storefront.Shop`: one object that holds both the tables and the page's
  state. There is one method per handler.
  - Each handler runs to completion as one step, including the reloads it
    starts.
  - The success of each store write the code checks is a boolean
    parameter.
  - The store gives fresh ids from a counter.
  - `Valid()` is the object invariant. It says three things:
    - every id in the products, cart_items, orders and order_items tables
      is below the counter, and no two products share an id;
    - the cart table has positive quantities and at most one line per
      (user, product, size, colour);
    - the page shows exactly the signed-in user's cart and orders.

Two behaviours of the code are worth stating outright:

- The unit price uses the discount price when it is present and non-zero
  (JavaScript truthiness), so a negative discount price in the store is
  charged as it is. `createProduct` never stores one, because it replaces
  a discount that is not positive with null.
- Checkout checks neither the order-items insert nor the deletion of the
  buyer's cart rows. The cart is cleared whether or not the lines were
  written. When the deletion fails, the order stands and the reloaded cart
  still holds the lines just ordered, so a second checkout records a
  second order. Both outcomes are parameters (`itemsOk`, `clearOk`).

## Model

| member | source | states |
|---|---|---|
| Pricing.UnitPrice | src/app/page.tsx:319-322 | a line's unit price is the product's discount price when present and non-zero, otherwise its base price, and 0 when the product did not resolve |
| Pricing.CartTotalIsLinesSum | src/app/page.tsx:319-322 | the left fold `cartTotal` equals the sum over lines of unit price times quantity |
| Pricing.OrderLinesFor | src/app/page.tsx:280-287 | checkout writes exactly one order line per cart line |
| Pricing.OrderLinesCopyCart | src/app/page.tsx:280-287 | order line i belongs to the order, copies cart line i's product, quantity, size and colour, and captures its unit price at checkout time |
| Pricing.OrderLinesTotalIsLinesSum | src/app/page.tsx:280-287 | the captured prices times quantities of the order lines add up to the sum of the cart's line amounts |
| Pricing.OrderLinesTotalIsCartTotal | src/app/page.tsx:263-287 | the order lines add up to the cart total recorded as the order's total |
| Catalog.Lower | src/app/page.tsx:313-314 | lower-casing keeps the length and lower-cases each character |
| Catalog.OccurrenceIsIncluded | src/app/page.tsx:313-314 | `includes` answers yes whenever the term occurs at some position |
| Catalog.IncludedHasOccurrence | src/app/page.tsx:313-314 | `includes` answers yes only when the term occurs at some position, and it returns that position |
| Catalog.IncludesIffOccurs | src/app/page.tsx:313-314 | `includes` holds exactly when the term occurs at some position of the text |
| Catalog.FilterProducts | src/app/page.tsx:312-317 | the listed products are the catalog's products whose name or description contains the lower-cased term and whose category matches (or "all"), in catalog order |
| Catalog.EmptySearchShowsAll | src/app/page.tsx:312-317 | an empty search in category "all" lists the whole catalog in order |
| Catalog.SearchIgnoresCase | src/app/page.tsx:313-314 | searching for a term and for its lower-cased form lists the same products |
| Catalog.FilterSameTest | src/app/page.tsx:312-317 | two searches that accept the same products list the same products |
| Admin.RevenueIsPaidTotal | src/app/page.tsx:137-138 | the revenue fold equals the sum of the totals of the paid orders; no other status contributes |
| Admin.UnpaidOrderAddsNoRevenue | src/app/page.tsx:137-138 | adding an order that is not paid leaves the revenue unchanged |
| Admin.AdminStatsOf | src/app/page.tsx:123-146 | the dashboard shows the paid revenue and the order, product and user counts, and 0 for a query that returned nothing |
| Admin.StatusLabelInjective | src/app/page.tsx:709-713 | different order statuses are shown with different labels |
| CartTable.SubsequenceKeepsLinesUnique | src/app/page.tsx:155-157 | dropping rows from a cart table keeps ids unique and keeps one line per (user, product, size, colour) |
| CartTable.UserRowsSelects | src/app/page.tsx:86-92 | loadCart selects exactly the user's rows |
| CartTable.DeleteRowSelects | src/app/page.tsx:180 | deleting by id removes exactly the rows with that id and keeps the order of the rest |
| CartTable.RemoveUserRowsSelects | src/app/page.tsx:292 | clearing a cart removes exactly that user's rows and keeps the order of the rest |
| CartTable.SetQuantity | src/app/page.tsx:182-185 | the quantity update changes only the quantity of the row with that id, and every other row stays as it was |
| CartTable.ClearedCartIsEmpty | src/app/page.tsx:292-295 | after the cart is cleared, reloading it finds no rows for that user |
| CartTable.FindProduct | src/app/page.tsx:89-90 | the product join returns a product with the row's product id, or nothing when there is none |
| CartTable.Join | src/app/page.tsx:86-94 | each loaded cart line is the row with its product embedded, one line per row |
| CartTable.FindLine | src/app/page.tsx:155-157 | `find` returns a cart line with that product, size and colour, or nothing when no line matches |
| StoreTables.UserOrdersSelects | src/app/page.tsx:98-109 | loadOrders selects exactly the user's orders, newest first |
| StoreTables.ItemsOfSelects | src/app/page.tsx:103-106 | an order's embedded lines are exactly the lines with its id |
| StoreTables.ItemsOfNewOrder | src/app/page.tsx:280-289 | after checkout inserts its lines, the new order's lines are exactly those lines |
| StoreTables.FindUser | src/app/page.tsx:56-60 | the users lookup returns a user with that id, or nothing when there is none |
| StoreTables.RemoveUserSelects | src/app/page.tsx:244 | deleting a user removes exactly the users with that id and keeps the order of the rest |
| StoreTables.SetAdmin | src/app/page.tsx:252-255 | the admin flag of the users with that id is set, and nothing else changes |
| StoreTables.StoredProduct | src/app/page.tsx:193-196 | the inserted product is the form's fields, with its discount kept only when positive and stored as null otherwise |
| StoreTables.ReplaceProduct | src/app/page.tsx:222-225 | the product with that id takes the new values and keeps its id, and every other product stays as it was |
| StoreTables.RemoveProductSelects | src/app/page.tsx:236 | deleting a product removes exactly the products with that id and keeps the catalog order of the rest |
| StoreTables.ReplaceKeepsIdsDistinct | src/app/page.tsx:222-225 | updating a product keeps product ids distinct |
| StoreTables.RemoveKeepsIdsDistinct | src/app/page.tsx:236 | deleting a product keeps the remaining product ids distinct |
| Storefront.DeleteKeepsCartOk | src/app/page.tsx:180 | deleting a cart row keeps the cart table well formed |
| Storefront.ClearKeepsCartOk | src/app/page.tsx:292 | clearing a user's cart keeps the cart table well formed |
| Storefront.SetQuantityKeepsCartOk | src/app/page.tsx:182-185 | setting a positive quantity keeps the cart table well formed |
| Storefront.InsertKeepsCartOk | src/app/page.tsx:161-170 | inserting a fresh line, with quantity 1, that the user does not have yet keeps the cart table well formed |
| Storefront.MissingLineIsNew | src/app/page.tsx:155-161 | when `find` misses in the loaded cart, the user has no row for that (product, size, colour) |
| Storefront.FoundLineIsRow | src/app/page.tsx:155-160 | a line `find` returns is one of the user's rows in the table |
| Storefront.QuantityUpdatedEffect | src/app/page.tsx:178-186 | a quantity of zero or less removes exactly the row with that id; any other quantity replaces that row's quantity and leaves the other rows alone |
| Storefront.AddFoundLineIncrements | src/app/page.tsx:155-160 | when the cart already has the line, addToCart raises that row's quantity by exactly one and changes no other row |
| Storefront.AddKeepsCartOk | src/app/page.tsx:148-176 | addToCart keeps the cart table well formed, in particular one line per (product, size, colour) per user |
| Storefront.IncrementKeepsCartOk | src/app/page.tsx:159-160 | raising a line's quantity by one keeps the cart table well formed |
| Storefront.CheckoutRecordsCart | src/app/page.tsx:260-296 | after checkout, the new order's embedded lines are exactly the lines written, and they add up to the order's total; the new pending order adds nothing to the revenue |
| Storefront.Shop.ShownProducts | src/app/page.tsx:312-317 | the page lists the products that match the search and the category, in catalog order |
| Storefront.Shop.Total | src/app/page.tsx:319-322 | the page's cart total is the sum over the cart's lines of unit price times quantity |
| Storefront.Shop.constructor | src/app/page.tsx:13-45 | the page mounts against any consistent store, whose tables and id counter it keeps, signed out, with an empty cart, no orders, no user list, a zero dashboard, no product being edited, every panel closed and the default product form |
| Storefront.Shop.LoadCart | src/app/page.tsx:83-96 | the cart shown is the user's rows joined with the products |
| Storefront.Shop.LoadOrders | src/app/page.tsx:98-112 | the order history shown is the user's orders, newest first |
| Storefront.Shop.LoadAdminStats | src/app/page.tsx:123-146 | the dashboard shows the paid revenue and the order, product and user counts |
| Storefront.Shop.LoadAllUsers | src/app/page.tsx:114-121 | the admin's user list is the users table |
| Storefront.Shop.SignIn | src/app/page.tsx:47-72 | a known user is signed in and sees their cart and orders, and an admin also sees the users and the dashboard; an id with no users row leaves the user, the cart and the orders shown as they were |
| Storefront.Shop.LoadUserData | src/app/page.tsx:295-296 | after the reloads, the page shows the user's cart and orders |
| Storefront.Shop.SignOut | src/app/page.tsx:303-310 | signing out clears the user, the cart and the orders, closes the admin and order panels, and keeps the store consistent |
| Storefront.Shop.UpdateCartQuantity | src/app/page.tsx:178-188 | a quantity of zero or less deletes the row and any other quantity updates it; the cart is reloaded and the cart table stays well formed |
| Storefront.Shop.AddToCart | src/app/page.tsx:148-176 | signed out, only the sign-in panel opens; signed in, the found line goes up by one, or a new line with quantity 1 and the next id is added when the insert succeeds; the cart is then reloaded, a failed insert leaves cart and counter as they were, and the cart table stays well formed |
| Storefront.Shop.AddLine | src/app/page.tsx:155-175 | past the sign-in guard: the found line goes up by one, or the new line is inserted with the next id when the insert succeeds, and the cart shown is reloaded; a failed insert changes nothing |
| Storefront.Shop.InsertLine | src/app/page.tsx:161-174 | the new cart row is appended with the next id, and the cart shown becomes the user's rows joined with the products |
| Storefront.Shop.InsertOrder | src/app/page.tsx:266-275 | the new order takes the next id and comes first in the orders table |
| Storefront.Shop.InsertOrderLines | src/app/page.tsx:280-289 | the checkout lines are appended when the insert succeeds, and nothing is written otherwise |
| Storefront.Shop.ClearCart | src/app/page.tsx:292 | the buyer's cart rows are deleted when the delete succeeds, and stay otherwise |
| Storefront.Shop.CreateOrder | src/app/page.tsx:260-301 | without a user, with an empty cart or with a failed order insert nothing changes; otherwise a pending order for the cart total is recorded first, its lines are written when that insert succeeds, the buyer's cart rows are deleted when that delete succeeds, the cart shown is reloaded (empty after a successful delete, the same lines after a failed one), the history shows the new order and the cart panel closes |
| Storefront.Shop.PlaceOrder | src/app/page.tsx:263-297 | the order is recorded, its lines are written when that insert succeeds, the cart rows are deleted when that delete succeeds and the cart is reloaded (empty after a successful delete), the new order heads the history, and the panel closes |
| Storefront.Shop.ShowPlacedOrder | src/app/page.tsx:295-297 | after checkout's writes, the cart shown is the buyer's remaining rows (none when the delete succeeded), the new order heads the history and the cart panel closes |
| Storefront.Shop.WriteOrder | src/app/page.tsx:266-292 | checkout's three writes: the order goes first in the orders table, its lines are appended, and the buyer's cart rows go, each of the last two only when it succeeds |
| Storefront.Shop.EditDraft | src/app/page.tsx:823-864 | the product form holds the fields the admin typed |
| Storefront.Shop.CreateProduct | src/app/page.tsx:190-217 | for an admin with a successful insert, the stored form becomes the newest product and the form is reset; otherwise nothing changes |
| Storefront.Shop.InsertProduct | src/app/page.tsx:198-200 | the new product takes the next id and is listed first |
| Storefront.Shop.UpdateProduct | src/app/page.tsx:219-231 | for an admin with a successful update, the product with that id takes the new values and the edit closes; otherwise nothing changes |
| Storefront.Shop.DeleteProduct | src/app/page.tsx:233-239 | for an admin, the product with that id is removed and the dashboard is reloaded; otherwise nothing changes |
| Storefront.Shop.DeleteUser | src/app/page.tsx:241-247 | an admin deletes another user and the user list and dashboard are reloaded; an admin cannot delete themself |
| Storefront.Shop.ToggleAdminStatus | src/app/page.tsx:249-258 | an admin sets another user's admin flag to the negation of the flag passed in; nobody can change their own flag |

## Left out

- Rendering: the JSX, the product cards, the dialogs and the menu are not modelled.
- The discount percentage badge (src/app/page.tsx:510) and the status colours (src/app/page.tsx:703-707) are not modelled.
- Concurrency: each handler runs atomically, with its reloads finished before the next handler starts. In the page, the reloads are asynchronous and not awaited.
- Authentication: `supabase.auth` is not modelled. The session's user id is SignIn's parameter.
- Storefront.Shop.SignIn: it runs checkUser together with the `loadCart` the page starts on mount (src/app/page.tsx:47-51). The page's mount-time `loadCart` loads the cart rows of the session's auth id even when that id has no users row (for example after deleteUser). The model treats such a session as signed out with an empty cart. The `loading` flag is not modelled.
- loadProducts (src/app/page.tsx:74-81) is not a separate step. The page's product list is the products table itself.
- Floating point: prices are exact reals. JavaScript number rounding and `toFixed` formatting are not modelled.
- Lower-casing: `toLowerCase` is modelled on the ASCII letters only.
- Failed reads: a query that returns no data (`if (data)`) is assumed not to happen, except in Admin.AdminStatsOf, which models the `|| 0` fallbacks.
- Unchecked writes: the outcomes of the quantity update and delete, deleteProduct, deleteUser and toggleAdminStatus are not checked by the code. The model treats these writes as always succeeding.
- Storefront.Shop.UpdateProduct: the page passes the whole edited product (src/app/page.tsx:947), so the update takes a full Product. A general partial update is not modelled. The inline edits made before saving (src/app/page.tsx:891-918) are not modelled either.
- Storefront.Shop.CreateOrder: the payment URL, built from `Date.now()`, is a parameter. Opening it with `window.open` is not modelled.
- loadOrders embeds each order's lines and their products. Embedding is modelled only through StoreTables.ItemsOf, not as a field of the shown orders.
- Timestamps: `created_at` and `updated_at` are not fields. Where the store orders rows by them, the model uses table order.
- Unordered selects: loadCart (src/app/page.tsx:86-92) and the embedded order lines (src/app/page.tsx:103-106) ask for no order, so the store may return their rows in any order. The model returns them in table order and keeps a row rewritten by the quantity update (src/app/page.tsx:182-185) in its place. The sequence equalities of CartTable.Join, StoreTables.ItemsOfNewOrder and Storefront.CheckoutRecordsCart describe that one order; the totals, the membership facts and `find` under one line per key do not depend on it.
- The search term, the selected category and the menu flag are parameters of Storefront.Shop.ShownProducts, not fields.
- src/lib/supabase.ts: `generatePaymentLink`, `createAdminUser` and `checkAdminStatus` (lines 67-91) are not part of this model; the page does not call them.
- Row-level security and the database's own constraints and triggers are not part of this model.
