# E-commerce store model

A Dafny model of the in-memory e-commerce store behind the demo HTTP API
(`ecommerce-api/app.py`), the service the load tests exercise.

The store has three pieces of state:

- a fixed catalogue of ten products (id, name, price, category, stock);
- the customers created so far, keyed by id;
- one cart per customer, an ordered sequence of lines.

`Store.Store` is a class with these three fields. Each route becomes one
member that returns the HTTP status and the fields of the JSON payload
as a `Reply`; timestamps are not part of the payload model. The routes
are modelled as follows:

- the routes that change state are methods with `modifies` frames (`CreateCustomer`, `AddToCart`, `Checkout`);
- the routes that only read are functions (`GetCustomer`, `GetProducts`, `GetProduct`, `GetCart`),
  apart from `SearchProducts`, which keeps the source's loop.

The object invariant `Valid()` says four things:

- every customer is stored under its own id;
- only customers have carts;
- no cart holds a product twice;
- every cart line carries the name and price of its catalogue entry.

Every state-changing method preserves it.

Files:

- `wrappers.dfy`: `Option`, for JSON keys and query arguments that may be absent.
- `python.dfy`: the Python behaviours the handlers rely on:
  - slicing `s[a:b]` for every pair of integer bounds, negative ones included;
  - `str.lower`;
  - substring `in`;
  - truthiness, and `a or b`.
- `catalogue.dfy`: products, the catalogue, lookup by id, and the filters of the listing and the search (`Select` over a `Criterion`).
- `cart.dfy`: cart lines and `MergeLine`, the reference definition of adding an item:
  - the first line for the same product grows by the quantity, or a line is appended;
  - `AddLine` is the source's for/else scan, proved equal to it;
  - lemmas say how merging affects length, distinctness, per-product quantities and the total.
- `store.dfy`: the class, its invariant, the handlers, and three client scenarios:
  - the load test's user journey;
  - two checkouts in a row;
  - ordering more than the stock.

Modelling choices:

- Prices and totals are integer cents.
- A new customer id and a new order id are parameters. A new customer id must not be in use already.
- The two spellings of the cart request's ids are both modelled. `customer_id or customerId` takes the snake_case value when it is truthy (present and non-empty, or non-zero for `product_id`) and the camelCase value otherwise.
- The quantity defaults to 1 and is not checked for sign. Only `stock < quantity` is refused, so zero and negative quantities are accepted, as in the source.
- Stock is never decremented, so a cart can hold more than the stock (`Store.Oversell`).

## Model

| member | source | states |
|---|---|---|
| `Wrappers.Option.GetOr` | ecommerce-api/app.py:122 | `d.get(key, default)`: the stored value when the key is present, the default otherwise |
| `Python.SliceBound` | ecommerce-api/app.py:76 | a slice bound is normalised into 0..len, and a non-negative bound is kept, or cut to len when past the end |
| `Python.Slice` | ecommerce-api/app.py:76 | `s[a:b]` is always a contiguous run `s[i..j]` of `s`, for any integer bounds |
| `Python.SliceWindow` | ecommerce-api/app.py:74-76 | for bounds 0 <= a <= b, `s[a:b]` holds at most b - a elements, exactly min(b, len) - a of them when a is inside `s` and none when a is past the end, each equal to `s[a + k]` |
| `Python.LowerChar` | ecommerce-api/app.py:72 | an upper-case ASCII letter becomes the matching lower-case letter, any other character is kept |
| `Python.SliceConcat` | ecommerce-api/app.py:76 | for non-negative bounds a <= b <= c, the slices s[a:b] and s[b:c] joined are exactly s[a:c] |
| `Python.Lower` | ecommerce-api/app.py:72 | `s.lower()` has the length of `s` and lowers every character |
| `Python.LowerIdempotent` | ecommerce-api/app.py:72 | lowering a lower-cased string changes nothing |
| `Python.ContainsIff` | ecommerce-api/app.py:108 | `Contains`, the model of `needle in hay`, holds exactly when `needle` occurs at some position of `hay`, and the empty string is in every string |
| `Python.OrStr` | ecommerce-api/app.py:120 | `a or b` on optional strings is `a` when `a` is truthy and `b` otherwise, and is truthy iff either is |
| `Python.OrInt` | ecommerce-api/app.py:121 | `a or b` on optional integers is `a` when `a` is truthy and `b` otherwise, and is truthy iff either is |
| `Python.TruthyStr` | ecommerce-api/app.py:127 | a string argument or field counts as given when it is present and non-empty, as `not customer_id` tests it here and `if category` / `not category` at lines 71 and 109 |
| `Python.TruthyInt` | ecommerce-api/app.py:127 | an integer field counts as given when it is present and non-zero, as `not product_id` tests it |
| `Catalogue.SameCategory` | ecommerce-api/app.py:72 | a product is in a category when the two names are equal after ASCII lowering of both, as here and at line 109 |
| `Catalogue.FindById` | ecommerce-api/app.py:91 | returns nothing exactly when no product has the id, otherwise a product with that id that is the first such in catalogue order |
| `Catalogue.Matches` | ecommerce-api/app.py:108-109 | the criterion of the listing and the search: `InCategory(c)` is `SameCategory(p, c)`, the test of line 72; `NameAndCategory(q, c)` holds when the lower-cased name contains the lower-cased query and, when `c` is truthy, the category equals it after lowering |
| `Catalogue.Select` | ecommerce-api/app.py:106-110 | the selected products are catalogue products meeting the criterion, never more than the catalogue |
| `Catalogue.SelectAppend` | ecommerce-api/app.py:106-110 | selecting over one more product appends it at the end exactly when it meets the criterion, so results keep catalogue order |
| `Catalogue.SelectExact` | ecommerce-api/app.py:72 | every product meeting the criterion is kept as often as it occurs in the catalogue, and no other product is kept |
| `Catalogue.SelectNone` | ecommerce-api/app.py:72 | when no product meets the criterion the selection is empty |
| `Catalogue.SelectAll` | ecommerce-api/app.py:106-110 | when every product meets the criterion nothing is dropped |
| `Catalogue.EmptySearchListsAll` | ecommerce-api/app.py:100-110 | a search with the empty query and no or an empty category returns the entire catalogue |
| `Catalogue.Listed` | ecommerce-api/app.py:70-72 | the list to paginate is drawn from the catalogue, is no longer than it, and is the whole catalogue without a non-empty category |
| `Catalogue.ListedExact` | ecommerce-api/app.py:70-72 | the list the listing paginates holds exactly the products whose category equals the query case-insensitively (all of them without a non-empty query), with their multiplicities |
| `Catalogue.CategoryIgnoresCase` | ecommerce-api/app.py:72 | for every product and query, the category test gives the same answer for the query and for its lower-cased form |
| `Cart.MergeLine` | ecommerce-api/app.py:143-154 | the merged cart has the same length when the product already had a line and one more line otherwise, and then has a line for the product |
| `Cart.MergeAt` | ecommerce-api/app.py:144-147 | when the first line for the product is at i, merging raises that line's quantity and changes nothing else |
| `Cart.MergeAbsent` | ecommerce-api/app.py:148-154 | when no line is for the product, merging appends the new line at the end |
| `Cart.MergeKeepsDistinct` | ecommerce-api/app.py:143-154 | a cart without duplicate products keeps none after merging |
| `Cart.MergeKeepsItems` | ecommerce-api/app.py:144-154 | merging changes quantities only: each line of the result has the product, name and price of the line of the cart at the same position, or of the new line past the old end (`Cart.MergeAbsent` gives equality with the new line) |
| `Cart.QuantityOf` | ecommerce-api/app.py:144-146 | a product without a line has quantity 0, and in a cart without duplicate products its quantity is that of its line |
| `Cart.MergeQuantities` | ecommerce-api/app.py:146 | merging adds the requested quantity to the product's quantity and leaves every other product's quantity unchanged |
| `Cart.Total` | ecommerce-api/app.py:171 | the total of a cart is non-negative when all prices and quantities are, and 0 when every quantity is 0 |
| `Cart.MergeTotal` | ecommerce-api/app.py:171 | when the product's lines carry the new line's price, merging raises the cart total by price times quantity |
| `Cart.AddLine` | ecommerce-api/app.py:144-154 | the for/else scan returns exactly `MergeLine` of the cart and the new line |
| `Store.CartRequest.CustomerId` | ecommerce-api/app.py:120 | the customer id is the snake_case value when it is truthy, the camelCase value otherwise |
| `Store.CartRequest.ProductId` | ecommerce-api/app.py:121 | the product id is the snake_case value when it is truthy, the camelCase value otherwise |
| `Store.CartRequest.Quantity` | ecommerce-api/app.py:122 | the quantity is the value sent, or 1 when the key is absent |
| `Store.NewLine` | ecommerce-api/app.py:149-154 | a new line for product p and quantity q holds q of p, and costs p's price times q |
| `Store.DefaultEmail` | ecommerce-api/app.py:42 | the default e-mail is "user", the first eight characters of the id (the whole id when shorter), then "@example.com" |
| `Store.NextPageStart` | ecommerce-api/app.py:74-75 | page n + 1 starts exactly where page n ends, `start_idx + limit` |
| `Store.PagesAdjacent` | ecommerce-api/app.py:74-76 | for page >= 1 and limit >= 0, the slices of pages n and n + 1 joined are the slice of 2 * limit items from page n's start, so successive pages neither overlap nor leave gaps |
| `Store.PageStart` | ecommerce-api/app.py:74 | the first index of a page is non-negative for page >= 1 and limit >= 0, the bound `PageWindow` relies on to slice from it |
| `Store.PageWindow` | ecommerce-api/app.py:74-76 | for page >= 1 and limit >= 0, the slice from `PageStart(page, limit)` = (page - 1) * limit, as line 74 computes it, holds at most limit items, exactly as many as remain from its start, each the item at the same offset from that start, none past the end |
| `Store.MergeKeepsInvariant` | ecommerce-api/app.py:140-154 | storing the merge of a catalogue line into a customer's cart keeps the store invariant |
| `Store.EmptyKeepsInvariant` | ecommerce-api/app.py:198 | emptying a customer's cart keeps the store invariant |
| `Store.Store.constructor` | ecommerce-api/app.py:10-24 | the store starts with the ten catalogue products, no customers and no carts |
| `Store.Store.CartOf` | ecommerce-api/app.py:170 | `carts.get(id, [])`: the stored cart, or the empty cart for a customer without one |
| `Store.Store.CreateCustomer` | ecommerce-api/app.py:39-47 | adds exactly one customer under the fresh id, named "John Doe" and given the default e-mail unless the body has them; replies 201 with the record; carts and products unchanged |
| `Store.Store.GetCustomer` | ecommerce-api/app.py:52-58 | 404 exactly for an unknown id, otherwise 200 with the stored record |
| `Store.Store.GetProducts` | ecommerce-api/app.py:63-83 | 200; total is the size of the category-filtered list whatever the page and limit; for page >= 1 and limit >= 0 the page is the window of at most limit products of that list starting at (page - 1) * limit, in order, empty past the end |
| `Store.Store.GetProduct` | ecommerce-api/app.py:91-95 | 404 exactly when no product has the id, otherwise 200 with the first catalogue product having it |
| `Store.Store.SearchProducts` | ecommerce-api/app.py:100-113 | 200 with, in catalogue order, exactly the products whose lower-cased name contains the lower-cased query and whose category matches a non-empty category case-insensitively |
| `Store.Store.AddToCart` | ecommerce-api/app.py:118-159 | checks in order: missing id (400), unknown customer (404), unknown product (404), stock below quantity (400), each leaving carts unchanged; otherwise 200 with "Item added to cart" and the new cart, and the customer's cart becomes `MergeLine` of the old one (empty if none) and the product's line, every other cart, the customers and the products unchanged |
| `Store.Store.PutLine` | ecommerce-api/app.py:140-154 | creates the cart when missing, then leaves it equal to the merge of the line into the old cart, keeping the invariant |
| `Store.Store.GetCart` | ecommerce-api/app.py:167-178 | 404 for an unknown customer; otherwise 200 with the lines, their total in cents and the number of lines; an empty view for a customer without a cart |
| `Store.Store.Checkout` | ecommerce-api/app.py:186-206 | 404 for an unknown customer, 400 for an absent or empty cart, both changing nothing; otherwise 200 with the order id, the order total and the status "completed", the cart emptied, customers kept |
| `Store.CheckoutTwice` | ecommerce-api/app.py:189-198 | a second checkout right after a successful one replies 400 "Cart is empty" |
| `Store.Oversell` | ecommerce-api/app.py:137-154 | on a server in any valid state, two requests of a fresh customer for the whole stock of product 1 both succeed and the cart holds twice its stock |
| `Store.UserJourney` | gatling-gradle-plugin-demo-java-main/src/gatling/java/example/EcommerceSimulation.java:29-83 | on a server in any valid state, with a fresh non-empty customer id and a quantity within stock, the journey's five requests reply 201, 200, 200, 200, 200 and the order costs 99999 cents per item |

## Left out

- Flask routing, request parsing and JSON serialisation: handlers take decoded arguments. Bodies that are not JSON, `page`/`limit` that `int()` rejects, and ids or quantities of other JSON types (floats, booleans, strings for product ids) are not modelled.
- The simulated latency (`time.sleep` over a random duration): it has no effect on state.
- `uuid.uuid4()`: the new customer id and the order id are parameters, and the customer id is required to be unused.
- Wall-clock timestamps (`created_at` of a new customer, `timestamp` of a checkout reply) and the health check route. They are absent from `Customer` and `Body`; every other payload field is modelled.
- The start-up banner and `app.run`: console and network I/O.
- Floating-point prices and totals: prices are integer cents, and totals are exact integer sums.
- `str.lower` beyond ASCII: only the letters A-Z are lowered.
- Concurrent requests against the shared dictionaries: requests are modelled one at a time.
- The Gatling load-test definitions: injection profiles, pauses, feeders, checks and assertions are run by the Gatling library, which is not part of this model. Only the order of requests in the user journey is used, by `Store.UserJourney`.
- Store.Store.GetProducts: the page window is characterised only for page >= 1 and limit >= 0. Other values are computed with Python's slicing rules (`Python.Slice`), and only membership in the filtered list, together with the `total`, `page` and `limit` fields, is stated for them.
