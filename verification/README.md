# Single-cart engine of a liquor shop backend

This project models the cart routes of a small e-commerce backend
(`backend/routes/cart.js`). The shop keeps exactly one shared cart: an ordered
list of lines `{product, quantity}` and a stored `total`. Four handlers act on it:

- **get** returns the stored cart, or creates an empty one (no lines, total 0)
  when none exists. The total is not recomputed on read.
- **add** creates the cart if needed. It answers NotFound for a product that is
  not in the catalogue; the cart has been created by then. Otherwise it adds the
  quantity to the product's existing line, or appends a new line. It then sets
  the total to *the number of units in the cart times the price of the product
  just added*. That is the code's fold: it applies the added product's price to
  every line, not each line's own price.
- **update** answers NotFound when there is no cart or no line for the product.
  A new quantity `<= 0` splices that line out; any other quantity replaces the
  line's quantity. The total is then recomputed from each remaining line's
  current price. If a remaining line's product has left the catalogue, the fold
  dereferences a missing product and the handler fails (a 400). The cart is not
  saved in that case.
- **remove** answers NotFound when there is no cart. Otherwise it filters out
  every line for the product. For a product with no line the lines are
  unchanged, but the total is still recomputed the same way as update, and
  that fold can still fail in the same way.

The model has three modules:

- `CartItems` (`cart_items.dfy`) holds the line list and the list operations
  as functions: `IndexOf`, `Merged`, `RemoveAt`, `Updated` and `Without`.
  It also holds the bag view `QuantityOf`, which says how much of each product
  the cart holds. Merge, update and filter are characterised against the bag
  view.
- `CartTotals` (`cart_totals.dfy`) holds the two left folds the handlers use:
  `FlatTotal` after add, and `PricedTotal` after update and remove. They are
  proved against the reference sums `QuantitySum × price` and `Worth`.
- `CartRoutes` (`cart_routes.dfy`) holds the imperative part:
  - a `Cart` class with the `items` and `total` fields the handlers assign;
  - a `CartStore` class whose `cart` field is the stored cart (null while none
    exists);
  - the linear search `FindIndex`;
  - the four handlers, as methods that return `Ok`, `NotFound` or `Error`.

Each handler's contract gives the whole new state in terms of the old one. Each
also keeps the store invariant "at most one line per product" (`Valid`). The
catalogue, the product store as one request sees it, is a
`map<ProductId, Product>` parameter. Prices are integer cents.

Facts about the code that the model keeps as they are:

- Get returns the stored total without recomputing it.
- Add accepts any quantity, zero and negative ones included.
- Neither add nor update reads `stock`.
- Update fails (Error, a 400) only when a remaining line's product is missing
  from the catalogue.
- After an add the total is Σ quantity × the added product's price, not each
  line's own price. `CartTotals.FlatTotalIgnoresLinePrices` gives an input
  where this differs from Σ quantity × current price.
  `CartTotals.FlatTotalUnderOnePrice` shows the two agree when every line has
  the added product's price.

## Model

| member | source | states |
|---|---|---|
| `CartRoutes.FindIndex` | backend/routes/cart.js:69-73 | the search returns the index of the first line for the product, or -1 exactly when no line refers to it |
| `CartItems.IndexOf` | backend/routes/cart.js:35-37 | the first line whose product matches, or -1 if and only if there is none; no earlier line matches |
| `CartItems.Merged` | backend/routes/cart.js:35-43 | an existing product's first line grows by the quantity and the number of lines is unchanged; an absent product gets exactly one new line `{id, q}` at the end; every other line keeps its position and value |
| `CartItems.RemoveAt` | backend/routes/cart.js:78 | the splice drops exactly one line and shifts the later ones down by one, keeping their order |
| `CartItems.Updated` | backend/routes/cart.js:77-81 | quantity `<= 0` drops the product's line; otherwise that line becomes `{id, q}`; every other line is kept, in order |
| `CartItems.Without` | backend/routes/cart.js:111-113 | no line for the product remains; a line is kept if and only if it is an original line of another product |
| `CartTotals.PricedTotal` | backend/routes/cart.js:87-90 | the update/remove fold succeeds if and only if every remaining line's product is in the catalogue |
| `CartRoutes.Cart.Empty` | backend/routes/cart.js:11 | a newly created cart has no lines and total 0 |
| `CartRoutes.CartStore.Get` | backend/routes/cart.js:7-18 | with no cart, a fresh empty cart with total 0 is created and stored; otherwise the stored cart is returned with lines and total unchanged (no recomputation on read) |
| `CartRoutes.CartStore.Add` | backend/routes/cart.js:21-57 | the cart exists afterwards; an unknown product gives NotFound and leaves lines and total as they were (an empty cart if it was just created); otherwise the lines are the merge and the total is the units in the cart times the added product's price; no duplicate lines are introduced |
| `CartRoutes.CartStore.Update` | backend/routes/cart.js:60-100 | no cart or no line gives NotFound and no change; otherwise, if every remaining line is priced, the lines are the update and the total is Σ quantity × current price; if one is not, Error and the stored cart is unchanged; no duplicates are introduced |
| `CartRoutes.CartStore.Remove` | backend/routes/cart.js:103-132 | no cart gives NotFound; otherwise, if every remaining line is priced, all lines for the product are gone and the total is Σ quantity × current price of the rest; if one is not, Error and the stored cart is unchanged; no duplicates are introduced |
| `CartItems.MergedQuantity` | backend/routes/cart.js:39-43 | adding `q` of a product raises that product's quantity by `q` and leaves every other product's quantity unchanged |
| `CartItems.MergedKeepsNoDuplicates` | backend/routes/cart.js:35-43 | add preserves "at most one line per product" |
| `CartItems.MergeTwice` | backend/routes/cart.js:35-43 | adding `q1` then `q2` of one product equals adding `q1 + q2` once: a single line with the summed quantity |
| `CartItems.MergedKeepsPositive` | backend/routes/cart.js:39-42 | adding a positive quantity keeps every line's quantity positive |
| `CartItems.UpdatedQuantity` | backend/routes/cart.js:77-81 | with no duplicates, the updated product's quantity becomes `q`, or 0 when `q <= 0`; every other product's quantity is unchanged |
| `CartItems.UpdatedKeepsNoDuplicates` | backend/routes/cart.js:77-81 | update preserves "at most one line per product" |
| `CartItems.UpdatedKeepsPositive` | backend/routes/cart.js:77-81 | update never leaves a line with quantity `<= 0` |
| `CartItems.RemoveAtIsWithout` | backend/routes/cart.js:78 | with no duplicates, splicing out the found line equals filtering out the product, so an update to quantity `<= 0` leaves the same lines as a remove |
| `CartItems.QuantityOfUnique` | backend/routes/cart.js:69-80 | with no duplicates, a product's quantity in the cart is the quantity on its one line |
| `CartItems.WithoutQuantity` | backend/routes/cart.js:111-113 | remove sets the product's quantity to 0 and keeps every other product's quantity |
| `CartItems.WithoutAbsent` | backend/routes/cart.js:111-113 | filtering out a product that has no line leaves the lines unchanged (the handler still recomputes the total) |
| `CartItems.WithoutIdempotent` | backend/routes/cart.js:111-113 | removing twice leaves the same lines as removing once |
| `CartItems.WithoutAppend` | backend/routes/cart.js:111-113 | the filter distributes over concatenation, so the kept lines stay in their original order |
| `CartItems.WithoutKeepsNoDuplicates` | backend/routes/cart.js:111-113 | remove preserves "at most one line per product" |
| `CartTotals.FlatTotal` | backend/routes/cart.js:45-47 | the add fold equals the sum of all line quantities times the added product's price |
| `CartTotals.FlatTotalUnderOnePrice` | backend/routes/cart.js:45-47 | the add total equals Σ quantity × each line's own price when every line's product has the added product's price |
| `CartTotals.FlatTotalIgnoresLinePrices` | backend/routes/cart.js:45-47 | for products priced 10 and 20, one unit each with the 20 added last, the add total is 40 where the lines are worth 30 |
| `CartTotals.PricedTotalIsWorth` | backend/routes/cart.js:119-122 | when every line is priced, the fold yields Σ quantity × that line's current price |
| `CartTotals.WorthRemoveAt` | backend/routes/cart.js:77-90 | dropping one line lowers Σ quantity × price by exactly that line's quantity × price |

## Left out

- Express routing, HTTP status codes and `res.json` are not modelled. The
  handlers return `Ok`, `NotFound` or `Error`, where `Error` stands for the
  caught exception (a 400).
- The `Cart.findById(...).populate('items.product')` re-fetch after each
  mutation and the `populate` in get are not modelled. The model returns the
  stored cart itself, not its view with resolved products.
- The `updatedAt` timestamps are left out: they are wall-clock values.
- Failures of the document store itself are not modelled (findOne, create and
  save raising, and get's 500 path). Neither are failures of the Cart schema,
  which is not part of this model: cast errors for malformed product ids,
  schema validation.
- CartRoutes.CartStore.Add: product ids are one canonical string, used both
  for the catalogue lookup and for the line match. In the source,
  `Product.findById` (backend/routes/cart.js:30) converts the id to an ObjectId
  and so also accepts other spellings, such as upper-case hex. The line match
  `item.product.toString() === productId` (:36) compares against the
  lower-case string. An add with such a spelling of a product already in the
  cart finds the product, misses its line, and appends a second line for it.
  The model's "no duplicate lines" guarantee for add rests on the single
  spelling.
- Quantities are integers. A JavaScript quantity that is a string, a fraction
  or `undefined` (where `+=` would concatenate or yield `NaN`) is not modelled.
- Prices are integer cents rather than JavaScript floating-point numbers, so
  rounding in the total is not modelled.
- Concurrency is not modelled. Each handler is one atomic step by a single
  writer; lost updates between concurrent requests on the shared cart are not
  captured.
- The product store's CRUD routes, the alcohol-consumption routes, the server
  bootstrap and the React frontend lie outside the cart engine.
