# Storefront cart and product lifecycle, in Dafny

This project models the logic of a small Laravel storefront, all of which lives in
`ProductController`:

- **The session cart.** A visitor's cart is a map from product id to a line. Each
  line holds the product's name and price as they were when the line was first added,
  plus a quantity.
  - `addToCart` adds one unit of an active product that is not in the trash. It
    answers with the item count, which is the sum of the quantities.
  - `updateCart` sets a line's quantity to the posted value after PHP's `(int)` cast.
    A value of zero or less removes the line.
  - `removeCart` deletes a line.
  - The cart page's total is the sum of price × quantity over the lines.
- **The product table.** Each product has a `status` (active, inactive, deleted) and
  a separate soft-delete stamp ("trashed").
  - `store` and `update` validate the form and apply defaults.
  - `destroy` sets the status to deleted and trashes the row.
  - `restore` only clears the trash stamp.
  - `forceDelete` removes the row.
  - The public listing shows active rows that are not trashed. The admin listing
    shows every row.

Files:

- `wrappers.dfy`: `Option` and `Result`.
- `php_cast.dfy`: module `PhpCast`, PHP's `(int)` cast of a request string.
- `catalog.dfy`: module `Catalog`. It holds statuses, products, lookups, listings and
  validation. The class `ProductStore` is the table: its methods change `rows` and the
  auto-increment counter `nextId` in place.
- `cart_store.dfy`: module `CartStore`. It holds cart lines and the folds `ItemCount`
  and `Total`. It also holds the pure transitions `AddLine` and `SetLineQuantity`. PHP
  arrays are values, and the handlers change a copy of the cart before writing it back.
  The class `CartSession` is the session slot.
- `scenarios.dfy`: module `Scenarios`. These are request sequences proved from the
  handlers' contracts alone. They cover the laptop walk-through, trash-then-restore,
  permanent delete and snapshot prices.

Prices are integer cents, because the column is a decimal with two places. A missing
or non-numeric price, and a name or status of the wrong kind, are request inputs of
kind `Malformed` or `Absent`. Each handler's error path is modelled, not excluded by a
precondition. The signed-in user (`auth()->id()`) is an `Option<nat>` parameter, and
`1` is the fallback.

Some behaviour of the code is easy to misremember. The model reproduces it as written:

- A negative price passes validation. The rule is only `required|numeric`.
- `restore` answers one message, "Product not found or not trashed". It covers both a
  missing row and a row that is not trashed.
- `destroy` on a row that is already trashed answers "Product not found" and changes
  nothing. `Product::find` does not see trashed rows.
- A restored product keeps the status `deleted`. It stays off the public listing and
  cannot be added to a cart until an update sets its status back.

## Model

| member | source | states |
|---|---|---|
| PhpCast.IntCast | app/Http/Controllers/ProductController.php:67 | the sign of the cast is the sign written before the digits: a negative result needs a leading minus (after whitespace), and a leading minus never gives a positive result; its value on digit strings is stated by IntCastShow, IntCastNonNumeric and IntCastIgnoresTail (exponent forms aside) |
| PhpCast.IntCastShow | app/Http/Controllers/ProductController.php:67 | casting the decimal rendering of n gives n, and with a leading minus gives -n |
| PhpCast.IntCastNonNumeric | app/Http/Controllers/ProductController.php:67 | text that does not start with whitespace, a sign or a digit (e.g. "abc", "") casts to 0; exponent forms such as ".5e1" are not modelled |
| PhpCast.IntCastIgnoresTail | app/Http/Controllers/ProductController.php:67 | apart from exponent forms ("3e2"), whatever follows the leading digits is ignored: "3abc" and "3.9" cast to 3 |
| Catalog.ParseStatus | app/Http/Controllers/ProductController.php:116 | a status string is accepted exactly when it is the name of one of the three statuses, and it maps back to that status |
| Catalog.StatusRule | app/Http/Controllers/ProductController.php:116 | the status rule passes exactly for an absent status or one of "active", "inactive", "deleted" |
| Catalog.Find | app/Http/Controllers/ProductController.php:130 | the default lookup finds a row exactly when it exists and is not trashed |
| Catalog.FindWithTrashed | app/Http/Controllers/ProductController.php:162 | the with-trashed lookup finds every existing row |
| Catalog.FindAvailable | app/Http/Controllers/ProductController.php:20-22 | the cart's lookup succeeds exactly for an existing, non-trashed row with status active |
| Catalog.ActiveListing | app/Http/Controllers/ProductController.php:13 | the public listing holds exactly the active, non-trashed rows, unchanged |
| Catalog.AdminListing | app/Http/Controllers/ProductController.php:105 | the admin listing holds every row, trashed or not, and contains the public listing |
| Catalog.TrashedOnlyInAdminListing | app/Http/Controllers/ProductController.php:105 | a trashed row is in the admin listing, not in the public one, and only the with-trashed lookup finds it |
| Catalog.Validate | app/Http/Controllers/ProductController.php:113-117 | the form passes iff the name is given, not blank and at most 255 characters, the price is numeric, and the status is absent or valid; each failing field is reported, and on success the data is the form's values |
| Catalog.ActingUser | app/Http/Controllers/ProductController.php:119 | the recorded user is the signed-in user when there is one and user 1 otherwise; NewProduct and UpdatedProduct write it as creator and updater |
| Catalog.NewProduct | app/Http/Controllers/ProductController.php:119-120 | a created row gets status active unless one was given, the signed-in user or 1 as creator, no updater, and is not trashed |
| Catalog.UpdatedProduct | app/Http/Controllers/ProductController.php:139-140 | an update writes name, price, the status only if given, and the updater (or 1); image, creator and trash stamp are kept |
| Catalog.ProductStore.constructor | database/migrations/2025_12_12_110202_create_products_table.php:11-12 | the table starts empty with auto-increment at 1 |
| Catalog.ProductStore.Store | app/Http/Controllers/ProductController.php:111-125 | an invalid form changes nothing and reports the failing fields; a valid one inserts the new row under the counter's id, which is above every id in the table, and advances the counter by one (with every other handler keeping the counter, an id is never handed out twice: see Scenarios.CreateAfterForceDelete) |
| Catalog.ProductStore.Update | app/Http/Controllers/ProductController.php:128-143 | a missing or trashed id answers "Product not found" before validation; an invalid form changes nothing; otherwise only that row changes, to the updated product |
| Catalog.ProductStore.Destroy | app/Http/Controllers/ProductController.php:146-156 | a missing or trashed id answers "Product not found" and changes nothing; otherwise the row gets status deleted and is trashed, nothing else changes |
| Catalog.ProductStore.Restore | app/Http/Controllers/ProductController.php:160-168 | only an existing trashed row is restored, by clearing the trash stamp alone; otherwise one error message and no change |
| Catalog.ProductStore.ForceDelete | app/Http/Controllers/ProductController.php:171-179 | any existing row, trashed or not, is removed from the table; a missing id answers "Product not found" |
| CartStore.SumRemove | app/Http/Controllers/ProductController.php:46 | the fold over the lines is independent of the order: it equals any one line's value plus the fold over the rest |
| CartStore.SumUpdate | app/Http/Controllers/ProductController.php:46 | inserting or replacing one line changes the fold by exactly that line's old and new values |
| CartStore.ItemCount | app/Http/Controllers/ProductController.php:46 | the badge count is the order-independent sum of the quantities (SumRemove, SumUpdate); in a well-formed cart it is at least the number of lines, so it counts units, not lines |
| CartStore.Total | resources/views/products/cart.blade.php:20-22 | the cart page total is the order-independent sum of price × quantity (SumRemove, SumUpdate, computed by SumOverLines); in a well-formed cart with no negative price it is not negative |
| CartStore.SumAtLeast | app/Http/Controllers/ProductController.php:46 | if every line's value is at least lo, the fold is at least lo times the number of lines |
| CartStore.SumOverLines | resources/views/products/cart.blade.php:20-22 | the loop over the lines computes exactly the fold (the total for subtotals, the item count for quantities) |
| CartStore.AddLine | app/Http/Controllers/ProductController.php:32-41 | the id's line gets one more unit, or is created with quantity 1 and the product's current name and price; every other line is unchanged; well-formedness is kept |
| CartStore.SetLineQuantity | app/Http/Controllers/ProductController.php:71-77 | a positive quantity replaces that line's quantity exactly; zero or less removes the line; other lines are unchanged; well-formedness is kept |
| CartStore.AddLineSums | app/Http/Controllers/ProductController.php:32-46 | adding raises the item count by exactly 1 and the total by the line's snapshot price, or by the current price for a new line |
| CartStore.AddTwice | app/Http/Controllers/ProductController.php:32-33 | adding the same product twice to a cart without it yields one line with quantity 2, one more line overall and an item count 2 higher |
| CartStore.SetLineQuantitySums | app/Http/Controllers/ProductController.php:72-76 | setting a quantity replaces the line's old quantity and subtotal in the count and total by the new one (zero when removed) |
| CartStore.RemoveLineSums | app/Http/Controllers/ProductController.php:91-92 | removing a line lowers the item count by its quantity and the total by its subtotal |
| CartStore.EmptySums | resources/views/layouts/app.blade.php:61 | an empty cart counts 0 items and totals 0 |
| CartStore.CartSession.constructor | app/Http/Controllers/ProductController.php:29 | a session without a cart reads as the empty cart |
| CartStore.CartSession.AddToCart | app/Http/Controllers/ProductController.php:18-54 | no available product: 404 "Product unavailable." and the cart is unchanged; otherwise the cart becomes AddLine of the old one and the reply carries the item count and the new cart |
| CartStore.CartSession.UpdateCart | app/Http/Controllers/ProductController.php:64-83 | an id not in the cart answers 404 and changes nothing; otherwise the cart becomes SetLineQuantity with the (int)-cast quantity |
| CartStore.CartSession.RemoveCart | app/Http/Controllers/ProductController.php:86-98 | an id not in the cart answers 404 and changes nothing; otherwise exactly that key is removed |
| Scenarios.LaptopJourney | app/Http/Controllers/ProductController.php:18-98 | creating "Laptop" at 55000.00 and adding it gives count 1 and total 55000.00; setting "3" gives 165000.00; removing gives 0 |
| Scenarios.CountAndTotal | resources/views/layouts/app.blade.php:61 | the badge and the cart page show the item count and the total of the session's cart |
| Scenarios.DestroyThenRestore | app/Http/Controllers/ProductController.php:146-168 | after trash then restore, the row is back with status deleted, is found by update and the admin listing, but is neither in the public listing nor addable to a cart |
| Scenarios.DestroyTwice | app/Http/Controllers/ProductController.php:146-156 | a second destroy of the same product answers "Product not found" and changes nothing more |
| Scenarios.ForceDeleteIsFinal | app/Http/Controllers/ProductController.php:171-179 | after a permanent delete, restore, update and destroy all report the id missing, and the id is below the counter, so no later create can be given it |
| Scenarios.CreateAfterForceDelete | app/Http/Controllers/ProductController.php:111-125 | after a permanent delete and two more creates, valid or not, the id is still absent and below the counter; the only new keys are the two counter values |
| Scenarios.PriceChangeKeepsCart | app/Http/Controllers/ProductController.php:35-40 | a line keeps the name and price it had when added, even after the product is edited; the total grows by that price |

## Left out

- Request, session and response plumbing (redirects, flash messages, JSON encoding, the `cart()` page, Blade templates, jQuery handlers, routes) is presentation. The cart page's total loop is modelled by `SumOverLines`.
- Request ids are natural numbers. A missing or non-numeric id in a cart request is not modelled. It would find nothing and answer 404.
- PhpCast.IntCast does not model exponent notation, whether digit-led or not ("3e2" casts to 300 and ".5e1" to 5, where the model gives 3 and 0), trailing whitespace rules, or saturation at PHP's 64-bit integer bounds.
- Price parsing: the `numeric` check on price text and the rounding to two decimals are not modelled. The price arrives as cents or as `Malformed`. The decimal(8,2) column range is not enforced, and a price past it would be a database error.
- Input middleware (trimming strings, turning empty strings into null) happens before the model. `Absent` stands for both a field that was not sent and one that was empty.
- Catalog.ProductStore.Update: an explicit empty status sent to `update` would write NULL into the NOT NULL status column. That is a database error, and it is not modelled. An `Absent` status keeps the old one.
- Timestamps (`created_at`, `updated_at`, `deleted_at`) are reduced to the boolean `trashed`. The `image` column is never written by these actions and is kept as it is.
- Integer widths: quantities and prices are unbounded, so PHP's integer-to-float overflow on `quantity++` is not modelled.
- Order: the cart and the listings are maps, so the database's row order in `index` and `adminIndex` and the cart's insertion order, which the pages and the JSON `cart` show, are not modelled. Nothing in these handlers depends on that order.
- Concurrency: each request is one synchronous read-modify-write of the session or of one row.
- Seeders and the factory (example data, random float prices) are not part of this model.
