# SPHINX-BLACK storefront core in Dafny

A verified model of the stock-keeping heart of the SPHINX-BLACK clothing
store: the Express/Mongoose back end that places orders against a
per-size inventory, the product routes and the product pre-save hook, and
the React/Redux front end's cart and auth reducers, admin product editor,
catalogue filter/sort and image URL helper.

Module layout (one module per source file, plus four modules with no source file of their own: the helpers `Common`, `Text` and `Seqs`, and the database abstraction `Store`):

| module | file | models |
|---|---|---|
| `Common` | common.dfy | `Option`/`Result`, JavaScript's `x \|\| d` on a parsed number |
| `Text` | text.dfy | the built-ins `toLowerCase` (ASCII), `startsWith` and `includes`, and hex digits |
| `Seqs` | seqs.dfy | the built-ins `Array.prototype.filter` and `find`/`findIndex` |
| `Catalog` | catalog.dfy | the product document and its pre-save hook (backend/models/Product.js) |
| `OrderModel` | order_model.dfy | the order document (backend/models/Order.js) |
| `Store` | store.dfy | the two collections as a `Database` class of maps; `save` runs the hook |
| `OrderRoutes` | order_routes.dfy | `POST /api/orders` and `PUT /api/orders/:id/deliver` |
| `ProductRoutes` | product_routes.dfy | list, id-or-slug lookup, update and delete of products |
| `CartSlice` | cart.dfy | the cart reducer as a `Cart` class |
| `AuthSlice` | auth.dfy | the auth reducer as an `AuthState` class |
| `AdminProducts` | admin_products.dfy | the admin list filter, size editor, legacy migration and slug rule |
| `Shop` | shop.dfy | `filteredProducts`: category/search filter and stable sort |
| `ImageHelper` | image_helper.dfy | `getImageUrl` |

Order placement is imperative, as in the route. `ValidateItems` is the first
loop: it checks every line against the catalogue as it was before the order,
and it is proved equal to the specification function `Validate`.
`DecrementItems` is the second loop: it decrements size rows (or the legacy
`stock`) and saves each product, and it is proved equal to the
specification fold `ApplyAll`. The lemmas about `ApplyAll` then state the
exact bookkeeping: a size row loses the summed demand of the lines for that
size, while untouched products and sizes stay unchanged. They also show
that duplicate lines validate one by one but are decremented together,
and so can drive a row negative. As in the source, nothing is rolled back
and `totalPrice` is stored as sent.

Conventions: money is integer cents; times (`Date.now()`, `createdAt`) are
naturals passed in as parameters; document ids are strings in canonical
lower-case hex; a parsed number is `Option<int>` (`None` for `NaN`).

## Model

| member | source | states |
|---|---|---|
| Common.OrDefault | backend/routes/productRoutes.js:14 | `parsed \|\| d`: an absent (NaN) or zero value gives the default; any other value is kept |
| Catalog.SumQuantities | backend/models/Product.js:50 | the total stock: with no negative row it is non-negative and at least every row's quantity (the same sum the admin editor shows at frontend/src/pages/Admin/Products.jsx:346) |
| Catalog.InStockSizes | backend/models/Product.js:54-56 | a size is listed exactly when some inventory row of that size has a positive quantity; never longer than the inventory |
| Seqs.Filter | frontend/src/redux/slices/cartSlice.js:43 | `filter`: exactly the elements passing the test, never longer than the input; it distributes over concatenation (`FilterConcat`), so order and repeats are kept |
| Text.Lower | frontend/src/pages/Shop.jsx:37-40 | `toLowerCase` on ASCII: same length, each character lower-cased, upper-case letters mapped to lower case and everything else kept |
| Text.StartsWith | frontend/src/utils/imageHelper.js:10 | `startsWith`: the prefix is at most as long as the string and equals its first characters |
| Text.Contains | frontend/src/pages/Shop.jsx:40 | `includes`: the substring starts at some position of the string |
| Seqs.FindFirst | backend/routes/orderRoutes.js:50 | `findIndex`: the first index whose element passes the test, or none when none does |
| Catalog.FindEntry | backend/routes/orderRoutes.js:26 | `findIndex` by size: the index of the first row of that size, or none when no row has it |
| Catalog.Save | backend/models/Product.js:47-59 | with a non-empty inventory, `stock` becomes the sum of quantities and `sizes` the in-stock sizes; with an empty one the document is unchanged; no other field ever changes |
| Catalog.SaveIdempotent | backend/models/Product.js:47-59 | saving twice gives the same document as saving once |
| Catalog.SumQuantitiesConcat | backend/models/Product.js:50 | the total of a concatenation is the sum of the totals (zero-quantity rows count as 0) |
| Catalog.SumQuantitiesUpdate | backend/models/Product.js:50 | changing one row's quantity changes the total by exactly the difference |
| Catalog.InStockSizesConcat | backend/models/Product.js:54-56 | `sizes` follows inventory order: the sizes of a concatenation are the concatenation of the sizes |
| Catalog.PositiveStockIffSomeSizeInStock | backend/models/Product.js:48-56 | with no negative row, the saved stock is non-negative, and positive exactly when `sizes` is non-empty |
| Catalog.NegativeRowHidesStock | backend/models/Product.js:48-56 | a negative row can cancel a positive one: rows S:3, M:-3 save with stock 0 while `sizes` still lists S |
| OrderModel.ToLine | backend/models/Order.js:5-11 | a stored line keeps the requested line's product, name, quantity, price and image |
| OrderModel.ToLines | backend/models/Order.js:5-11 | every requested line is stored, in order, as its projection |
| OrderModel.HasPaymentMethod | backend/models/Order.js:18 | the required `paymentMethod` string: validation passes iff it is present and not empty; this alone decides whether the new order is rejected after the stock was taken |
| Store.Database.SaveProduct | backend/routes/orderRoutes.js:61 | `product.save()` writes the hooked document under its id and touches nothing else |
| OrderRoutes.Message | backend/routes/orderRoutes.js:13-39 | which rejections carry a message the route writes itself (the early return and every per-line check) and which do not (the thrown `TypeError` and the schema failure, whose texts are not modelled) |
| OrderRoutes.Status | backend/routes/orderRoutes.js:76-79 | a created order answers 201; every failure answers 400 |
| OrderRoutes.CheckItem | backend/routes/orderRoutes.js:19-41 | one line's check: "product not found" exactly when the product is missing; otherwise only the size errors for a sized product and only the stock error for a legacy one |
| OrderRoutes.Validate | backend/routes/orderRoutes.js:18-42 | the first loop's outcome: any error it reports is the error of one of the lines |
| OrderRoutes.CheckItemPasses | backend/routes/orderRoutes.js:19-41 | a line passes exactly when its product exists and, if the product has sizes, its size is listed with a quantity not below the request, and otherwise the global stock is not below it; the first failure is "product not found", then "invalid size" |
| OrderRoutes.ValidatePasses | backend/routes/orderRoutes.js:18-42 | the first loop succeeds exactly when every line passes on its own |
| OrderRoutes.ValidateFailsAt | backend/routes/orderRoutes.js:18-42 | the first failing line decides the error |
| OrderRoutes.NewOrder | backend/routes/orderRoutes.js:65-73 | the order is paid at `now`, not delivered, and carries the user, the lines, the address, the payment method and the total verbatim (absent total: 0) |
| OrderRoutes.DecrementLine | backend/routes/orderRoutes.js:48-57 | one line lowers only the first row of its size (or, for a legacy product, `stock`) by its quantity; sizes, row order and every other field are kept |
| OrderRoutes.ApplyLine | backend/routes/orderRoutes.js:45-62 | one iteration of the second loop: no product appears or disappears, and every product other than the line's is unchanged |
| OrderRoutes.ApplyAll | backend/routes/orderRoutes.js:45-62 | the second loop over all lines, in order: the catalogue keeps exactly the same products |
| OrderRoutes.ValidateItems | backend/routes/orderRoutes.js:18-42 | the first loop returns exactly the error `Validate` gives on the current catalogue |
| OrderRoutes.DecrementItems | backend/routes/orderRoutes.js:45-62 | the second loop leaves the catalogue equal to `ApplyAll` of the old one and leaves the orders alone |
| OrderRoutes.PlaceOrder | backend/routes/orderRoutes.js:9-81 | an empty list fails with "No order items" and an absent one fails as not iterable, neither changing anything; a failing line changes nothing; otherwise every line is decremented, and then the order is stored, or, without a payment method, rejected (the decrements standing) |
| OrderRoutes.ApplyAllShape | backend/routes/orderRoutes.js:48-57 | decrementing keeps each product's sizes and row order, and whether it is a legacy product |
| OrderRoutes.UntouchedProductUnchanged | backend/routes/orderRoutes.js:45-62 | a product no line names is left exactly as it was |
| OrderRoutes.DecrementRow | backend/routes/orderRoutes.js:48-53 | one line lowers only the first row of its size, by its quantity |
| OrderRoutes.SizedRowAfterOrder | backend/routes/orderRoutes.js:48-53 | after the order each size row equals its old quantity minus the summed demand of the lines for that size, when it is the first row of its size, and is otherwise unchanged |
| OrderRoutes.LegacyStockAfterOrder | backend/routes/orderRoutes.js:54-57 | a legacy product's stock falls by the summed quantity of its lines, and its `sizes` stays |
| OrderRoutes.SizedStockAfterOrder | backend/routes/orderRoutes.js:48-61 | a sized product named by some line ends with stock and sizes re-derived from its decremented inventory |
| OrderRoutes.DemandOfSingleLine | backend/routes/orderRoutes.js:45-62 | with exactly one line for a size, the demand on it is that line's quantity |
| OrderRoutes.DemandNoLine | backend/routes/orderRoutes.js:45-62 | with no line for a size, nothing is taken from it |
| OrderRoutes.SingleLineCannotOversell | backend/routes/orderRoutes.js:18-62 | when a validated order has a single line for a size, that row does not go negative |
| OrderRoutes.DuplicateLinesOversell | backend/routes/orderRoutes.js:18-62 | two lines of S×2 against a row of 2 both validate, and leave the row and the stock at -2 |
| OrderRoutes.Delivered | backend/routes/orderRoutes.js:109-111 | the order is delivered at `now` and otherwise unchanged |
| OrderRoutes.MarkDelivered | backend/routes/orderRoutes.js:106-118 | a known order is stored and returned as delivered now; an unknown id fails and changes nothing; products are never touched |
| OrderRoutes.DeliverStatus | backend/routes/orderRoutes.js:114-116 | delivered answers 200, unknown 404 |
| OrderRoutes.DeliverOverwritesTimestamp | backend/routes/orderRoutes.js:110-111 | delivering again overwrites the first timestamp |
| ProductRoutes.EffectiveLimit | backend/routes/productRoutes.js:14 | 100 when absent, non-numeric or 0; otherwise the parsed value; never 0 |
| ProductRoutes.LimitBound | backend/routes/productRoutes.js:17 | a negative limit bounds the list by its magnitude |
| ProductRoutes.MatchesKeyword | backend/routes/productRoutes.js:10-12 | no search or an empty one matches all; otherwise the name must contain the search, ignoring case |
| ProductRoutes.InsertNewest | backend/routes/productRoutes.js:19 | inserting one id keeps the list newest first, adds exactly that id, and keeps ids distinct |
| ProductRoutes.DistinctCardinality | backend/routes/productRoutes.js:16 | a list of distinct ids has as many ids as its set |
| ProductRoutes.SortedMatches | backend/routes/productRoutes.js:10-19 | the matching ids, each once, newest first |
| ProductRoutes.TakeNewest | backend/routes/productRoutes.js:16-19 | cutting the sorted matches keeps the newest ones: no match left out is newer than one kept |
| ProductRoutes.ListProducts | backend/routes/productRoutes.js:8-23 | at most the limit's magnitude of products, exactly `min(bound, matches)`, all matching the search, distinct, newest first, no omitted match newer than a listed one |
| ProductRoutes.NoSearchKeepsEverything | backend/routes/productRoutes.js:10-12 | without a search (or with an empty one) every product matches |
| ProductRoutes.IsObjectIdFormat | backend/routes/productRoutes.js:32 | exactly 24 characters, each a hex digit of either case |
| ProductRoutes.LookupOf | backend/routes/productRoutes.js:32-36 | lookup by id exactly when the argument is 24 hex digits of either case; lookup by slug, with the argument as given, otherwise |
| ProductRoutes.LookupIgnoresHexCase | backend/routes/productRoutes.js:32 | an id in upper- or lower-case hex names the same document |
| ProductRoutes.GetProduct | backend/routes/productRoutes.js:28-44 | by id: the stored product, or 404 when absent; by slug: a product with that slug, or 404 exactly when none has it |
| ProductRoutes.Assign | backend/routes/productRoutes.js:60 | each of the fourteen fields the body carries overwrites the product's, as stated field by field in its `ensures`; absent fields, the id and the creation time are kept |
| ProductRoutes.Savable | backend/models/Product.js:4-15 | the schema's checks on save: name, slug and description non-empty, every inventory row's size non-empty, and no other product has the slug |
| ProductRoutes.UpdateProduct | backend/routes/productRoutes.js:56-67 | unknown id: 404 and nothing changes; otherwise the merged product is saved through the hook, or rejected with 400 and nothing changes when a required field or an inventory row's size is empty or the slug is taken |
| ProductRoutes.UpdateRederivesStock | backend/routes/productRoutes.js:58-65 | an update sending a non-empty inventory stores the sum of its quantities (the total the admin editor shows) as stock, whatever stock was sent |
| ProductRoutes.EmptiedInventoryKeepsOldStock | backend/routes/productRoutes.js:60-61 | an update emptying the inventory, without stock or sizes, keeps the old stock and sizes |
| ProductRoutes.DeleteProduct | backend/routes/productRoutes.js:70-80 | a known product is removed with "Product removed" and every other product keeps its value; an unknown id gives 404 and nothing changes; the orders never change |
| ProductRoutes.Status | backend/routes/productRoutes.js:62-66 | success 200, unknown id 404, failed save 400 |
| CartSlice.SumQuantity | frontend/src/redux/slices/cartSlice.js:37 | the cart's unit count: with every line holding at least one unit, at least the number of lines |
| CartSlice.SumAmount | frontend/src/redux/slices/cartSlice.js:38 | the cart's value: non-negative when no price or quantity is negative |
| CartSlice.FindLine | frontend/src/redux/slices/cartSlice.js:16 | the first line with both the id and the size, or none when no line has both |
| CartSlice.FindById | frontend/src/redux/slices/cartSlice.js:51 | the first line with the id, or none |
| CartSlice.AddLine | frontend/src/redux/slices/cartSlice.js:14-34 | a matching line (same id and size) becomes `min(old + n, maxStock)` with others unchanged; otherwise a line with `min(n, maxStock)` and its `maxStock` is appended; `n = quantity \|\| 1`, `maxStock = maxStock \|\| 99` |
| CartSlice.RemoveLines | frontend/src/redux/slices/cartSlice.js:43 | exactly the lines with another id remain, whatever their size |
| CartSlice.RemoveLinesConcat | frontend/src/redux/slices/cartSlice.js:43 | removal works part by part, so the kept lines stay in their order, repeats included |
| CartSlice.RemoveLinesSingle | frontend/src/redux/slices/cartSlice.js:43 | one line is kept iff its id differs |
| CartSlice.RemoveAbsentIdKeepsCart | frontend/src/redux/slices/cartSlice.js:43 | removing an id no line has leaves the cart as it was |
| CartSlice.LimitOf | frontend/src/redux/slices/cartSlice.js:55 | `maxStock \|\| 99`: the stored limit when non-zero, 99 when it is 0, never 0 |
| CartSlice.Clamp | frontend/src/redux/slices/cartSlice.js:56-60 | above the limit gives the limit; otherwise `max(1, quantity)`; so within `[1, limit]` whenever the limit is at least 1, unchanged when already inside |
| CartSlice.UpdateLine | frontend/src/redux/slices/cartSlice.js:49-61 | only the first line with the id changes, to the clamped quantity with limit `maxStock \|\| 99`; an unknown id changes nothing |
| CartSlice.SumsConcat | frontend/src/redux/slices/cartSlice.js:37-38 | the totals of a concatenation are the sums of the totals |
| CartSlice.SumsUpdate | frontend/src/redux/slices/cartSlice.js:37-38 | changing one line's quantity changes the totals by that line's difference |
| CartSlice.AddLineTotals | frontend/src/redux/slices/cartSlice.js:20-38 | after an add, both totals change by exactly the units the merged or new line gained, and their price, in the merge and the append case |
| CartSlice.AddLineKeepsKeysUnique | frontend/src/redux/slices/cartSlice.js:16-33 | adding never gives two lines the same id and size |
| CartSlice.RemoveLinesTotals | frontend/src/redux/slices/cartSlice.js:43-46 | removing subtracts exactly the removed lines' units and amounts |
| CartSlice.SetCartTotalsUntrusted | frontend/src/redux/slices/cartSlice.js:73-77 | a restored payload's totals need not agree with its lines |
| CartSlice.Cart.constructor | frontend/src/redux/slices/cartSlice.js:4-8 | the empty cart with zero totals, consistent |
| CartSlice.Cart.RecalculateTotals | frontend/src/redux/slices/cartSlice.js:37-38 | the totals become the sums over the lines |
| CartSlice.Cart.AddToCart | frontend/src/redux/slices/cartSlice.js:14-39 | the lines become `AddLine` of the old ones and the totals agree with them |
| CartSlice.Cart.RemoveFromCart | frontend/src/redux/slices/cartSlice.js:41-47 | the lines become `RemoveLines` of the old ones and the totals agree with them |
| CartSlice.Cart.UpdateQuantity | frontend/src/redux/slices/cartSlice.js:49-65 | the lines become `UpdateLine` of the old ones and the totals agree with them |
| CartSlice.Cart.ClearCart | frontend/src/redux/slices/cartSlice.js:67-71 | no lines and zero totals |
| CartSlice.Cart.SetCart | frontend/src/redux/slices/cartSlice.js:73-77 | the payload's lines and totals are copied (defaults `[]`, 0, 0), without recomputation |
| AuthSlice.AuthState.constructor | frontend/src/redux/slices/authSlice.js:4-15 | the stored user, authenticated exactly when there is one, not loading, no error |
| AuthSlice.AuthState.LoginStart | frontend/src/redux/slices/authSlice.js:17-20 | loading with no error; user and authentication untouched; consistency kept |
| AuthSlice.AuthState.LoginSuccess | frontend/src/redux/slices/authSlice.js:21-27 | not loading, authenticated, the payload as user, error untouched; consistent when the payload is a user |
| AuthSlice.AuthState.LoginFailure | frontend/src/redux/slices/authSlice.js:28-31 | not loading, the payload as error; user and authentication untouched; consistency kept |
| AuthSlice.AuthState.Logout | frontend/src/redux/slices/authSlice.js:32-37 | no user, not authenticated, loading and error untouched; consistent |
| AuthSlice.NullLoginBreaksInvariant | frontend/src/redux/slices/authSlice.js:21-24 | a null payload to `loginSuccess` leaves an authenticated state without a user |
| AdminProducts.AdminMatches | frontend/src/pages/Admin/Products.jsx:64-67 | a product shows iff its lower-cased name contains the lower-cased search term and the selection is 'all' or its populated category's id equals the selection |
| AdminProducts.AdminFiltered | frontend/src/pages/Admin/Products.jsx:64-67 | exactly the products whose name contains the search term, ignoring case, and whose category id is the selected one (or 'all') |
| AdminProducts.InitialInventory | frontend/src/pages/Admin/Products.jsx:169-173 | a non-empty inventory as is; else a positive stock as one `L` row; else no rows |
| AdminProducts.MigrationKeepsTotal | frontend/src/pages/Admin/Products.jsx:169-173 | a migrated legacy product shows its whole stock, as size L in stock |
| AdminProducts.InventoryChange | frontend/src/pages/Admin/Products.jsx:199-209 | the rows after an edit: zero for a listed size leaves no row of it, anything else leaves the row `{size, quantity}`; rows of other sizes are neither added nor lost |
| AdminProducts.ChangeReplacesQuantity | frontend/src/pages/Admin/Products.jsx:202-205 | a non-zero quantity for a listed size replaces only that size's quantity; order and other rows kept |
| AdminProducts.ParsedQuantity | frontend/src/pages/Admin/Products.jsx:200 | `parseInt(qty) \|\| 0`: the parsed number when it is a non-zero number, 0 for NaN or 0 |
| AdminProducts.ChangeToZeroRemoves | frontend/src/pages/Admin/Products.jsx:204 | quantity 0 for a listed size gives exactly `filter` of the other sizes' rows, in order and with their repetitions: the size is gone, the list is shorter, every other row stays |
| AdminProducts.ChangeAppendsNewSize | frontend/src/pages/Admin/Products.jsx:207 | an unlisted size is appended at the end, even with quantity 0 |
| AdminProducts.UniqueSizesTail | frontend/src/pages/Admin/Products.jsx:202-207 | dropping the first row keeps sizes unique and none equals the first |
| AdminProducts.UniqueSizesCons | frontend/src/pages/Admin/Products.jsx:202-207 | a row of a new size in front keeps sizes unique |
| AdminProducts.FilterKeepsUniqueSizes | frontend/src/pages/Admin/Products.jsx:204 | removing rows keeps sizes unique |
| AdminProducts.ChangeKeepsSizesUnique | frontend/src/pages/Admin/Products.jsx:199-209 | an edit never gives a size two rows |
| AdminProducts.ClearedLegacyProductKeepsStock | frontend/src/pages/Admin/Products.jsx:168-209 | zeroing a migrated legacy product's L row shows a total of 0 and sends an empty inventory, yet the saved product keeps its positive stock |
| AdminProducts.Dashed | frontend/src/pages/Admin/Products.jsx:259 | `replace(/ /g, '-')`: the same length, each space turned into a dash and every other character kept |
| AdminProducts.Slugify | frontend/src/pages/Admin/Products.jsx:259 | the derived slug has only ASCII letters, digits, `_` and `-`, no upper case, and is no longer than the name |
| AdminProducts.SlugifyConcat | frontend/src/pages/Admin/Products.jsx:259 | the rule works character by character: the slug of a concatenation is the concatenation of the slugs |
| AdminProducts.SlugifyChar | frontend/src/pages/Admin/Products.jsx:259 | one character is lower-cased, a space becomes `-`, and the result is kept exactly when it is in `[A-Za-z0-9_-]` |
| AdminProducts.SlugifyIdempotent | frontend/src/pages/Admin/Products.jsx:259 | deriving a slug from a slug changes nothing |
| AdminProducts.PayloadSlug | frontend/src/pages/Admin/Products.jsx:259 | a typed slug is sent as is; a blank one is `Slugify(name)` |
| Shop.Compare | frontend/src/pages/Shop.jsx:43-49 | each case of the page's comparator is the difference of the sort keys of its two products |
| Shop.SortKey | frontend/src/pages/Shop.jsx:43-49 | the key of each sort: price, negated price, negated creation time, or 0 for any other choice |
| Shop.Insert | frontend/src/pages/Shop.jsx:43-50 | insertion adds exactly that element |
| Shop.InsertSorted | frontend/src/pages/Shop.jsx:43-50 | insertion into an ordered list keeps it ordered |
| Shop.StableSort | frontend/src/pages/Shop.jsx:43-50 | the result is a permutation ordered by the key |
| Shop.FilterCons | frontend/src/pages/Shop.jsx:34 | filtering a list with a first element keeps that element exactly when it passes |
| Shop.InsertKeepsTies | frontend/src/pages/Shop.jsx:43-50 | insertion keeps the relative order of equal keys, the inserted element first |
| Shop.StableSortKeepsTies | frontend/src/pages/Shop.jsx:43-50 | the sort is stable: elements with equal keys keep their order |
| Shop.StableSortConstantKey | frontend/src/pages/Shop.jsx:48 | with all keys equal the sort changes nothing |
| Shop.MatchesCategory | frontend/src/pages/Shop.jsx:35-38 | 'all' (compared exactly) matches everything; otherwise the category's lower-cased name, or its slug as stored, must equal the lower-cased active category, and a product with no category never matches |
| Shop.MatchesSearch | frontend/src/pages/Shop.jsx:40 | the lower-cased name contains the lower-cased search query |
| Shop.Filtered | frontend/src/pages/Shop.jsx:34-42 | exactly the products matching both the category and the search |
| Shop.FilteredProducts | frontend/src/pages/Shop.jsx:33-50 | a permutation of the filtered list; by price non-decreasing for price-low, non-increasing for price-high, newest first for newest |
| Shop.SameElements | frontend/src/pages/Shop.jsx:43 | sorting keeps the same products |
| Shop.SortKeyOrder | frontend/src/pages/Shop.jsx:44-47 | ascending key order is each comparator's order |
| Shop.FeaturedKeepsOrder | frontend/src/pages/Shop.jsx:48 | any other `sortBy` keeps the filtered order |
| Shop.PriceSortIsStable | frontend/src/pages/Shop.jsx:45-46 | products of equal price keep their catalogue order |
| Shop.FilterKeepsCatalogueOrder | frontend/src/pages/Shop.jsx:34-42 | the filter keeps catalogue order |
| Shop.AllWithEmptyQueryShowsEverything | frontend/src/pages/Shop.jsx:35-40 | 'all' with an empty query shows the whole catalogue, in order |
| ImageHelper.GetImageUrl | frontend/src/utils/imageHelper.js:6-21 | absent or empty path: `''`; `http`/`blob` path unchanged; `/uploads` path prefixed with `BASE_URL`; anything else unchanged |
| ImageHelper.StartsWithConcat | frontend/src/utils/imageHelper.js:10 | a prefix of a string is a prefix of any extension of it |
| ImageHelper.GetImageUrlIdempotent | frontend/src/utils/imageHelper.js:6-21 | normalising a normalised URL changes nothing |
| ImageHelper.GetImageUrlEndsWithPath | frontend/src/utils/imageHelper.js:6-21 | a non-empty result ends with the path it was given |

## Left out

- I/O and the browser: HTTP transport, `localStorage` reads and writes in the auth reducer, and the cart persistence in App.jsx. The stored user is a constructor parameter instead.
- Time: `Date.now()` and `createdAt` are natural-number parameters; date parsing for the `newest` sort is not modelled.
- The order id: the store's fresh id is the `newId` parameter, which is required to be unused.
- Floating point: prices and totals are integer cents.
- Concurrency: one request at a time, so the gap between the validation loop and the decrement loop is never raced.
- Failing product saves: a product save that fails schema validation in the middle of the decrement loop is not modelled; here every such save succeeds.
- Mongoose casts: a malformed id in `PUT`/`DELETE /api/products/:id`, in an order line, or in the deliver route is a cast error (a 400 or 500, or an unhandled rejection for deliver) in the source. Ids here are canonical strings, so that case does not arise. mongoose's acceptance of 12-character ids is also not modelled.
- Database plumbing: `populate`, `timestamps` and the category store are not modelled. A product holds its category already populated. `GET /api/orders/myorders`, `GET /api/orders` and `POST /api/products` are left out; they are queries and a plain create.
- The admin filter's `p.category === selectedCategory` disjunct is not modelled: the list is fetched with populated categories, so it never holds.
- Product fields without logic (`colors`, `specifications`) are not modelled.
- Text: lower-casing is ASCII only, without Unicode case mapping. `$regex` is a case-insensitive substring test, so regex metacharacters are not interpreted. `parseInt` is an `Option<int>` input.
- NewOrder: an explicit `totalPrice: null` fails the schema's `required` after the stock was taken, just like a missing `paymentMethod`. The model has one `None` for both an absent and a null total, and reads it as the default 0.
- Error messages thrown by the runtime (`orderItems is not iterable`) and by schema validation are not modelled as text.
- Auth middleware (`protect`, `admin`) is outside the model: every route is called as an authorised user.
- Seeding the mutable form state and the rest of the modal (image handling, upload, toasts): only the inventory, slug and total logic are modelled.
