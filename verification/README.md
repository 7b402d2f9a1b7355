# Shopping-cart consistency model

A Dafny model of the cart subsystem of an Express/Mongoose e-commerce backend.
Each user has at most one cart. A cart holds an ordered list of lines
`{productId, quantity, price}` and two derived totals, `totalItems` and
`totalPrice`. Five handlers read or change the cart, and each one checks the
change against the product collection before applying it:
`getCart`, `addToCart`, `updateCartItem`, `removeFromCart` and `clearCart`.

Modules: one per source file, plus two shared modules and one module of proofs.

- `Wrappers`: `Option` and `Result`.
- `ProductModel` (`models/Product.js`): the product record, its schema
  constraints and defaults, the category enum, and `isAvailable`.
- `CartItems`: sequences of lines. It holds the three list operations the
  cart code is built from. `FindIndex` is `findIndex`/`find`, `Sum` is the
  `reduce` behind the totals, and `Filter` is `filter`. It also holds
  `Merge`, the add-or-merge step.
- `CartModel` (`models/Cart.js`): the cart document. `Save` is schema
  validation followed by the pre-save hook that recomputes the totals. The
  document methods `addItem`, `removeItem`, `updateItemQuantity` and
  `clearCart` are modelled too.
- `CartController` (`controllers/cartController.js`): the five handlers, as
  pure functions over a catalog `map<ProductId, Product>` and a store
  `map<UserId, Cart>`. A mutating handler returns the store after the call
  together with a view or an error, so "a rejected call leaves the store
  unchanged" is a proved postcondition.
- `CartProperties`: properties that relate several definitions. These cover
  the combined stock check, what a successful call writes, agreement with the
  document methods, preservation of the store invariant, and the read path.

Prices are whole cents (`int`), so the totals are exact sums. A failed save is
modelled: the schema rejects a line with quantity below 1 or a negative price,
and the handlers turn that into `ServerError`, as their `catch` blocks turn
any failure into a 500. The `*PreservesWellFormed` lemmas prove this never
happens when quantities are at least 1 and the catalog is valid.

Where the code differs from what a reader might expect, the model follows the code:

- Merging into an existing line only raises `quantity`. The line keeps its old
  price snapshot (`controllers/cartController.js:95`, `models/Cart.js:64`).
  Only `updateCartItem` refreshes the price.
- `addToCart`, `updateCartItem` and `removeFromCart` return the re-read stored
  cart. That cart is not filtered by product state. Only `getCart` filters.
- `getCart` filters the lines but returns the stored totals unchanged (see
  Findings).
- The document method `removeItem` drops every line for the product and never
  reports a missing line; its save can still be refused. The document method `updateItemQuantity` is a silent no-op when no
  line matches, and it leaves the price alone.

## Model

| member | source | states |
|---|---|---|
| ProductModel.ParseCategory | models/Product.js:32-37 | a category string is accepted only if it spells one of the seven enum values, and it is then that value |
| ProductModel.ParseCategoryName | models/Product.js:32-37 | every enum value's stored spelling parses back to that value |
| ProductModel.Valid | models/Product.js:15-56 | the schema bounds of a stored product: price >= 0, stock >= 0, rating average in [0, 5] |
| ProductModel.IsAvailable | models/Product.js:72-74 | the `isAvailable` virtual: stock above zero and active |
| ProductModel.Create | models/Product.js:15-56 | a created product satisfies the schema and keeps every supplied field; absent fields take their defaults (stock 0, category Other, active, rating 0); a missing or negative price, a negative stock, a category outside the enum and a rating outside [0, 5] each force an error naming that path, and a path is named only when it is violated, so a clean input is accepted |
| ProductModel.CreateRoundTrip | models/Product.js:15-56 | creation from a product's own fields returns that product exactly when it is valid, and otherwise reports its violations |
| ProductModel.CreateDefaults | models/Product.js:26-74 | a product given only a price is active, in category Other, with zero stock and rating, and is not available |
| CartItems.FindIndex | controllers/cartController.js:80-82 | the result is the index of the first line for the product, and nothing exactly when no line has it |
| CartItems.FindIndexUnique | controllers/cartController.js:145-147 | when products are unique, any line for the product is the one found |
| CartItems.Sum | models/Cart.js:54-55 | the left fold behind both totals: the sum of a weight over the lines, from 0 |
| CartItems.SumUpdate | models/Cart.js:53-55 | replacing one line changes a total by exactly the difference of that line's weights |
| CartItems.SumRemove | models/Cart.js:53-55 | removing one line lowers a total by exactly that line's weight |
| CartItems.ValidTotalsBounds | models/Cart.js:9-19 | with valid lines, the item total is at least the number of lines and the price total is non-negative |
| CartItems.Filter | models/Cart.js:73 | the lines a predicate keeps, in order, never more than there were |
| CartItems.FilterMembership | models/Cart.js:72-74 | a line survives a filter exactly when it was present and the filter keeps it |
| CartItems.FilterAppend | models/Cart.js:72-74 | filtering distributes over concatenation, so surviving lines keep their relative order |
| CartItems.FilterOutUnique | controllers/cartController.js:227 | with unique products, dropping every line for a product equals splicing out its one line |
| CartItems.Merge | controllers/cartController.js:80-103 | add-or-merge keeps the line count when the product has a line, and otherwise appends exactly one line with the given quantity and price |
| CartItems.MergeExisting | controllers/cartController.js:84-95 | on any cart holding the product, merging adds the quantity to the first line for it and keeps that line's position and price; no other line changes |
| CartItems.MergeUnique | controllers/cartController.js:80-103 | add-or-merge keeps at most one line per product |
| CartItems.MergeValid | models/Cart.js:9-19 | merging a positive quantity at a non-negative price keeps every line schema-valid |
| CartItems.MergeQuantity | models/Cart.js:60-67 | add-or-merge adds exactly the requested units to the cart's item count |
| CartItems.MergeLineTotal | models/Cart.js:60-67 | add-or-merge raises the price total by the requested units at the existing line's snapshot price, or at the given price for a new line |
| CartModel.NewCart | controllers/cartController.js:72-77 | a lazily created cart belongs to the user, has no lines and zero totals |
| CartModel.Save | models/Cart.js:53-56 | a save succeeds exactly when every line is valid; it keeps owner and lines and leaves totals equal to the sum of quantities and the sum of price times quantity |
| CartModel.SaveIdempotent | models/Cart.js:53-56 | saving a saved cart changes nothing, and saved totals are in range |
| CartModel.AddItem | models/Cart.js:60-67 | the lines after `addItem` are the add-or-merge of the old lines |
| CartModel.AddItemTotals | models/Cart.js:60-67 | on a saved cart `addItem` succeeds, raises `totalItems` by exactly the quantity and `totalPrice` by the quantity times the kept snapshot, or times the given price for a new line |
| CartModel.RemoveItem | models/Cart.js:72-74 | `removeItem` keeps exactly the lines for other products |
| CartModel.RemoveItemSpec | models/Cart.js:72-74 | after `removeItem` no line for the product remains and every other line does; with no such line the cart is unchanged |
| CartModel.UpdateItemQuantity | models/Cart.js:77-84 | `updateItemQuantity` never changes the number of lines and changes no line when none matches |
| CartModel.UpdateItemQuantitySpec | models/Cart.js:77-84 | only the matching line changes, to the new quantity at its old price, and both totals move by the difference |
| CartModel.ClearCart | models/Cart.js:87-90 | clearing always succeeds with no lines and zero totals |
| CartController.CartOrNew | controllers/cartController.js:70-77 | the cart `addToCart` works on is the stored one unchanged, or a new empty cart for the user |
| CartController.Commit | controllers/cartController.js:105 | a write either installs the saved cart and returns it, or fails with a server error and leaves the store unchanged |
| CartController.GetCart | controllers/cartController.js:9-35 | with no cart the view is empty with zero totals; otherwise the totals are the stored ones and no line is added |
| CartController.AddToCart | controllers/cartController.js:50-116 | a rejection leaves the store unchanged; "unavailable" exactly when the product is missing or inactive; stock below the request always rejects; success touches only this user's cart |
| CartController.UpdateCartItem | controllers/cartController.js:132-188 | the checks happen in order: cart, line, product, then stock against the absolute quantity. Each error occurs exactly when its check fails, and a rejection leaves the store unchanged |
| CartController.RemoveFromCart | controllers/cartController.js:203-240 | "cart not found" and "item not found" exactly when absent; success splices out the first line for the product, keeps the rest in order, and touches no other cart |
| CartController.ClearCart | controllers/cartController.js:255-273 | fails exactly when there is no cart; otherwise the cart keeps its owner and ends with no lines and zero totals |
| CartProperties.AddToCartStock | controllers/cartController.js:61-93 | for an active product, "insufficient stock" happens exactly when existing plus requested units exceed stock; otherwise the add succeeds |
| CartProperties.AddToCartExisting | controllers/cartController.js:84-95 | a successful add of a product already in the cart grows that line in place, keeps its price, adds no line, raises `totalItems` by the quantity and `totalPrice` by the quantity at the old snapshot price |
| CartProperties.AddToCartNew | controllers/cartController.js:96-102 | a successful add of a new product appends exactly one line at the current price, to a fresh cart if there was none, and the totals grow by that line |
| CartProperties.AddToCartIsAddItem | models/Cart.js:60-67 | the handler's write equals the document method `addItem` at the product's current price |
| CartProperties.UpdateCartItemSets | controllers/cartController.js:172-176 | a successful update sets the line to exactly the new quantity at the current price, in place, changes no other line, and both totals move by the difference |
| CartProperties.RemoveFromCartIsRemoveItem | controllers/cartController.js:226-228 | with unique products the handler's splice equals the document method `removeItem`, and no line for the product remains |
| CartProperties.RemoveFromCartTotals | controllers/cartController.js:215-228 | removing a present line splices it out, keeps the order of the rest, and lowers `totalItems` by its quantity and `totalPrice` by its line total |
| CartProperties.InstallWellFormed | models/Cart.js:29-34 | storing a saved, duplicate-free cart under its owner's key keeps one well-formed cart per user |
| CartProperties.AddToCartPreservesWellFormed | controllers/cartController.js:80-105 | `addToCart` never fails on save and keeps every cart saved, owned and duplicate-free |
| CartProperties.UpdateCartItemPreservesWellFormed | controllers/cartController.js:172-176 | `updateCartItem` never fails on save and keeps every cart saved, owned and duplicate-free |
| CartProperties.RemoveFromCartPreservesWellFormed | controllers/cartController.js:226-228 | `removeFromCart` never fails on save and keeps every cart saved, owned and duplicate-free |
| CartProperties.ClearCartPreservesWellFormed | controllers/cartController.js:264-265 | `clearCart` never fails on save and keeps every cart saved, owned and duplicate-free |
| CartProperties.ClearThenGet | controllers/cartController.js:255-273 | after a clear, reading the cart gives no lines and zero totals |
| CartProperties.GetCartShowsActive | controllers/cartController.js:27 | the view shows exactly the stored lines whose product exists and is active, in stored order |
| CartProperties.GetCartReactivation | controllers/cartController.js:26-27 | a line hidden by deactivation is still stored and reappears when the product is reactivated |
| CartProperties.AvailableAdmitsFirstUnit | models/Product.js:72-74 | for a product not yet in the cart, adding one unit succeeds exactly when the product is available |
| CartProperties.GetCartStaleTotals | controllers/cartController.js:27-35 | as written, a cart whose one line is hidden is shown with no lines but a non-zero item total |
| CartProperties.GetCartRecomputed | controllers/cartController.js:26-35 | the corrected view shows the same lines, with totals equal to the sums over those lines |
| CartProperties.GetCartRecomputedAgrees | controllers/cartController.js:26-35 | when no line is hidden, the corrected view equals the view the handler returns |

## Findings

| source | as written | input that shows it | evidently intended | confidence | as-written member | corrected member |
|---|---|---|---|---|---|---|
| controllers/cartController.js:27-35 | `getCart` removes lines whose product is missing or inactive from the response, but returns the stored `totalItems`/`totalPrice`, which still count those lines | a cart with one line (product `p`, 2 units at 150) whose product is inactive: the view has no lines but `totalItems` 2 and `totalPrice` 300 | the totals in the view agree with the lines it shows, as the pre-save hook keeps them for stored carts | medium, not executed | CartProperties.GetCartStaleTotals | CartProperties.GetCartRecomputed |

`CartController.GetCart` stays the model of the handler as written.
`CartProperties.GetCartRecomputed` is the corrected view.
`CartProperties.GetCartRecomputedAgrees` shows the two coincide whenever
nothing is hidden.

## Left out

- HTTP layer: routing, middleware, status codes, messages and JSON shapes. Outcomes are the `Error` datatype and `CartView`.
- Request validation (`utils/validation.js`). The handlers are total functions of any integer quantity. The lemmas that need it assume `quantity >= 1`, which the route's validator guarantees.
- Product ids are taken to be canonical: the id a request sends is assumed to equal the stored id's `toString()`, so one string both finds the product and matches its line. The handlers look the product up with `findById` (`controllers/cartController.js:53`, `:157`), which also accepts other spellings of the same ObjectId, such as upper-case hex. Lines are matched by string equality with the lower-case `toString()` (`:80-82`, `:145-147`, `:215-217`). With a non-canonical spelling, `addToCart` misses the existing line, skips the combined stock check and appends a second line for the same product. The resulting cart can exceed stock and break one-line-per-product. `CartProperties.AddToCartStock` and `CartProperties.AddToCartPreservesWellFormed` hold only for canonical ids.
- Persistence: lookups, `populate` and the re-read after save are pure map reads and writes. A populated line whose product was deleted is represented by the missing catalog key. Storage failures other than schema validation, and the cast error of a malformed id, are not modelled.
- Concurrency: requests are sequential. The race in which two simultaneous adds both pass the stock check is outside a sequential model.
- JavaScript numbers: prices are integer cents and quantities are integers. Fractional quantities, floating-point rounding, and a quantity that arrives as a string are not modelled. With a string quantity, `+` would concatenate.
- Product fields that play no part in the cart (`name`, `description`, `imageUrl`, `tags`), the text and field indexes, timestamps, `addedAt`, and the cart's unused `isActive` flag.
- ProductModel.Create: does not model `name` and `description` (models/Product.js:3-14). Both are required, `name` is trimmed with at most 100 characters and `description` has at most 500. `Create` and `CreateRoundTrip` accept on the assumption that those checks pass; the source would also reject a missing, empty or over-long name or description.
- Mongoose reports at most one error per path. `ProductModel.Create` reports the set of failing paths and not their messages.
- CartController.GetCart: its contract gives only totals, emptiness and a length bound. Which lines are shown, and their order, is stated by `CartProperties.GetCartShowsActive`.
