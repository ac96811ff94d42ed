/**
 * The in-memory store behind the e-commerce HTTP API: a fixed product
 * catalogue, the customers created so far and one cart per customer, with
 * one operation per route. Each operation returns the HTTP status and the
 * fields of the JSON payload it would send, apart from timestamps.
 */
module Store {
  import opened Wrappers
  import opened Python
  import opened Catalogue
  import opened Cart

  /** A customer record (its creation timestamp is not modelled). */
  datatype Customer = Customer(id: string, name: string, email: string)

  /** The JSON payload of a reply, without its timestamps; all totals are in integer cents.
      `OrderPlaced.status` is the order's `"status"` key, not the HTTP status of the `Reply`. */
  datatype Body =
    | ProductPage(products: seq<Product>, total: int, page: int, limit: int)
    | ProductBody(product: Product)
    | ProductList(results: seq<Product>)
    | CustomerBody(customer: Customer)
    | CartAdded(message: string, cart: seq<CartLine>)
    | CartView(customerId: string, items: seq<CartLine>, total: int, itemCount: int)
    | OrderPlaced(orderId: string, customerId: string, total: int, status: string)
    | Error(message: string)

  datatype Reply = Reply(status: int, body: Body)

  const CustomerNotFound: string := "Customer not found"
  const ProductNotFound: string := "Product not found"
  const IdsRequired: string := "customer_id and product_id are required"
  const InsufficientStock: string := "Insufficient stock"
  const CartEmpty: string := "Cart is empty"
  const DefaultName: string := "John Doe"
  const ItemAdded: string := "Item added to cart"
  const Completed: string := "completed"

  /** The decoded JSON body of an add-to-cart request: each key may be absent,
      and both the snake_case and the camelCase spelling of the ids are accepted. */
  datatype CartRequest = CartRequest(
    customerIdSnake: Option<string>, customerIdCamel: Option<string>,
    productIdSnake: Option<int>, productIdCamel: Option<int>,
    quantity: Option<int>)
  {
    /** `data.get('customer_id') or data.get('customerId')` */
    function CustomerId(): (r: Option<string>)
      ensures TruthyStr(customerIdSnake) ==> r == customerIdSnake
      ensures !TruthyStr(customerIdSnake) ==> r == customerIdCamel
    {
      OrStr(customerIdSnake, customerIdCamel)
    }

    /** `data.get('product_id') or data.get('productId')` */
    function ProductId(): (r: Option<int>)
      ensures TruthyInt(productIdSnake) ==> r == productIdSnake
      ensures !TruthyInt(productIdSnake) ==> r == productIdCamel
    {
      OrInt(productIdSnake, productIdCamel)
    }

    /** `data.get('quantity', 1)` */
    function Quantity(): (r: int)
      ensures quantity.Some? ==> r == quantity.value
      ensures quantity.None? ==> r == 1
    {
      quantity.GetOr(1)
    }
  }

  /** The e-mail given to a customer created without one: "user", the first
      eight characters of the id, then "@example.com". */
  function DefaultEmail(id: string): (r: string)
    ensures |id| >= 8 ==> r == "user" + id[..8] + "@example.com"
    ensures |id| < 8 ==> r == "user" + id + "@example.com"
  {
    "user" + Slice(id, 0, 8) + "@example.com"
  }

  /** The line that adding `quantity` of `p` to a cart without it creates. */
  function NewLine(p: Product, quantity: int): (r: CartLine)
    ensures QuantityOf([r], p.id) == quantity
    ensures Total([r]) == p.price * quantity
  {
    CartLine(p.id, p.name, p.price, quantity)
  }

  /** A cart line carries the name and price of the catalogue entry for its product. */
  predicate LineFromCatalogue(l: CartLine, ps: seq<Product>)
  {
    FindById(ps, l.productId).Some? &&
    l.name == FindById(ps, l.productId).value.name &&
    l.price == FindById(ps, l.productId).value.price
  }

  /** Every customer is stored under its own id, only customers have carts,
      no cart holds a product twice, and every line agrees with the catalogue. */
  ghost predicate StoreInvariant(products: seq<Product>, customers: map<string, Customer>,
                                 carts: map<string, seq<CartLine>>)
  {
    && (forall id :: id in customers ==> customers[id].id == id)
    && (forall id :: id in carts ==> id in customers)
    && (forall id :: id in carts ==> DistinctProducts(carts[id]))
    && (forall id, i :: id in carts && 0 <= i < |carts[id]| ==> LineFromCatalogue(carts[id][i], products))
  }

  /** Storing the merge of a catalogue line into a customer's cart keeps the invariant. */
  lemma MergeKeepsInvariant(products: seq<Product>, customers: map<string, Customer>,
                            carts: map<string, seq<CartLine>>, cid: string, cart: seq<CartLine>, line: CartLine)
    requires StoreInvariant(products, customers, carts)
    requires cid in customers && cart == (if cid in carts then carts[cid] else [])
    requires LineFromCatalogue(line, products)
    ensures StoreInvariant(products, customers, carts[cid := MergeLine(cart, line)])
  {
    MergeKeepsDistinct(cart, line);
    MergeKeepsItems(cart, line);
    var merged := MergeLine(cart, line);
    forall i | 0 <= i < |merged| ensures LineFromCatalogue(merged[i], products) {
      if i < |cart| {
        assert cid in carts && LineFromCatalogue(carts[cid][i], products);
      }
    }
  }

  /** Emptying a customer's cart keeps the invariant. */
  lemma EmptyKeepsInvariant(products: seq<Product>, customers: map<string, Customer>,
                            carts: map<string, seq<CartLine>>, cid: string)
    requires StoreInvariant(products, customers, carts)
    requires cid in customers
    ensures StoreInvariant(products, customers, carts[cid := []])
  {
  }

  /** Where a page of `limit` items numbered from 1 starts, `(page - 1) * limit`:
      never before the list for page >= 1. `PageWindow` needs this bound to slice
      from here; `PageWindow` and `PagesAdjacent` state what the slices hold. */
  function PageStart(page: int, limit: int): (r: int)
    ensures 1 <= page && 0 <= limit ==> 0 <= r
  {
    (page - 1) * limit
  }

  /** Page `page + 1` starts exactly `limit` items after page `page`. */
  lemma NextPageStart(page: int, limit: int)
    ensures PageStart(page + 1, limit) == PageStart(page, limit) + limit
  {
  }

  /** Pages `page` and `page + 1` of `s` together are the window of `2 * limit`
      items from page `page`'s start, so successive pages neither overlap nor
      leave gaps. */
  lemma PagesAdjacent(s: seq<Product>, page: int, limit: int)
    requires 1 <= page && 0 <= limit
    ensures Slice(s, PageStart(page, limit), PageStart(page, limit) + limit)
            + Slice(s, PageStart(page + 1, limit), PageStart(page + 1, limit) + limit)
            == Slice(s, PageStart(page, limit), PageStart(page, limit) + 2 * limit)
  {
    NextPageStart(page, limit);
    var a := PageStart(page, limit);
    SliceConcat(s, a, a + limit, a + 2 * limit);
  }

  /** The page of `limit` items numbered `page` (>= 1) of the list `s`: at most
      `limit` items, exactly as many as remain from its start, each the item at
      the same offset from the page start, and none once the start is past the end. */
  lemma PageWindow(s: seq<Product>, page: int, limit: int)
    ensures 1 <= page && 0 <= limit ==>
              var w := Slice(s, PageStart(page, limit), PageStart(page, limit) + limit);
              && |w| <= limit
              && |w| == (if PageStart(page, limit) >= |s| then 0
                         else if PageStart(page, limit) + limit <= |s| then limit else |s| - PageStart(page, limit))
              && forall k :: 0 <= k < |w| ==> w[k] == s[PageStart(page, limit) + k]
  {
    if 1 <= page && 0 <= limit {
      SliceWindow(s, PageStart(page, limit), PageStart(page, limit) + limit);
    }
  }

  class Store {
    var products: seq<Product>
    var customers: map<string, Customer>
    var carts: map<string, seq<CartLine>>

    ghost predicate Valid()
      reads this
    {
      StoreInvariant(products, customers, carts)
    }

    /** The store as the server starts: the ten products, no customers, no carts. */
    constructor ()
      ensures Valid()
      ensures products == InitialProducts && customers == map[] && carts == map[]
    {
      products := InitialProducts;
      customers := map[];
      carts := map[];
    }

    /** `carts.get(id, [])` */
    function CartOf(id: string): (r: seq<CartLine>)
      reads this
      ensures id in carts ==> r == carts[id]
      ensures id !in carts ==> r == []
    {
      if id in carts then carts[id] else []
    }

    /** POST /api/customers. The fresh id is a parameter; name and e-mail
        default when the body lacks them. Exactly one customer is added. */
    method CreateCustomer(id: string, name: Option<string>, email: Option<string>) returns (reply: Reply)
      requires Valid()
      requires id !in customers
      modifies this`customers
      ensures Valid()
      ensures customers == old(customers)[id := Customer(id, name.GetOr(DefaultName), email.GetOr(DefaultEmail(id)))]
      ensures |customers| == |old(customers)| + 1
      ensures reply == Reply(201, CustomerBody(customers[id]))
      ensures carts == old(carts) && products == old(products)
    {
      var customer := Customer(id, name.GetOr(DefaultName), email.GetOr(DefaultEmail(id)));
      customers := customers[id := customer];
      reply := Reply(201, CustomerBody(customer));
    }

    /** GET /api/customers/<id> */
    function GetCustomer(id: string): (r: Reply)
      reads this
      ensures r.status == 404 <==> id !in customers
      ensures id !in customers ==> r.body == Error(CustomerNotFound)
      ensures id in customers ==> r == Reply(200, CustomerBody(customers[id]))
    {
      if id !in customers then Reply(404, Error(CustomerNotFound))
      else Reply(200, CustomerBody(customers[id]))
    }

    /** GET /api/products: the (optionally category-filtered) catalogue, one page
        of it, its total size, and the page and limit used (defaults 1 and 10). */
    function GetProducts(page: Option<int>, limit: Option<int>, category: Option<string>): (r: Reply)
      reads this
      ensures r.status == 200 && r.body.ProductPage?
      ensures r.body.total == |Listed(products, category)|
      ensures r.body.page == page.GetOr(1) && r.body.limit == limit.GetOr(10)
      ensures forall p :: p in r.body.products ==> p in Listed(products, category)
      ensures var p, l, n := page.GetOr(1), limit.GetOr(10), |Listed(products, category)|;
              1 <= p && 0 <= l ==>
                && |r.body.products| <= l
                && |r.body.products| == (if PageStart(p, l) >= n then 0
                                         else if PageStart(p, l) + l <= n then l else n - PageStart(p, l))
                && forall k :: 0 <= k < |r.body.products| ==>
                     r.body.products[k] == Listed(products, category)[PageStart(p, l) + k]
    {
      var p, l := page.GetOr(1), limit.GetOr(10);
      var filtered := Listed(products, category);
      var start := PageStart(p, l);
      PageWindow(filtered, p, l);
      Reply(200, ProductPage(Slice(filtered, start, start + l), |filtered|, p, l))
    }

    /** GET /api/products/<id>: the first catalogue entry with that id, or 404. */
    function GetProduct(id: int): (r: Reply)
      reads this
      ensures r.status == 404 <==> forall i :: 0 <= i < |products| ==> products[i].id != id
      ensures r.status == 404 ==> r.body == Error(ProductNotFound)
      ensures r.status != 404 ==> r.status == 200 && r.body.ProductBody? && r.body.product.id == id
      ensures r.status != 404 ==>
                exists i :: 0 <= i < |products| && products[i] == r.body.product &&
                  forall j :: 0 <= j < i ==> products[j].id != id
    {
      var found := FindById(products, id);
      if found.None? then Reply(404, Error(ProductNotFound)) else Reply(200, ProductBody(found.value))
    }

    /** GET /api/search: in catalogue order, the products whose lower-cased name
        contains the lower-cased query (default "") and, when a non-empty
        category is given, whose category matches it case-insensitively. */
    method SearchProducts(q: Option<string>, category: Option<string>) returns (reply: Reply)
      ensures reply == Reply(200, ProductList(Select(products, NameAndCategory(q.GetOr(""), category))))
    {
      var query := q.GetOr("");
      var results := [];
      var i := 0;
      while i < |products|
        invariant 0 <= i <= |products|
        invariant results == Select(products[..i], NameAndCategory(query, category))
      {
        var product := products[i];
        SelectAppend(products[..i], product, NameAndCategory(query, category));
        assert products[..i + 1] == products[..i] + [product];
        if Contains(Lower(product.name), Lower(query)) {
          if !TruthyStr(category) || Lower(product.category) == Lower(category.value) {
            results := results + [product];
          }
        }
        i := i + 1;
      }
      assert products[..|products|] == products;
      reply := Reply(200, ProductList(results));
    }

    /** POST /api/cart. The checks run in this order: both ids present (400),
        known customer (404), known product (404), enough stock (400). On
        success the product's line grows by the quantity, or a new line is
        appended; stock is never decremented. */
    method AddToCart(req: CartRequest) returns (reply: Reply)
      requires Valid()
      modifies this`carts
      ensures Valid()
      ensures customers == old(customers) && products == old(products)
      ensures reply.status == 200 || reply.status == 400 || reply.status == 404
      ensures !TruthyStr(req.CustomerId()) || !TruthyInt(req.ProductId()) ==>
                reply == Reply(400, Error(IdsRequired))
      ensures TruthyStr(req.CustomerId()) && TruthyInt(req.ProductId()) && req.CustomerId().value !in customers ==>
                reply == Reply(404, Error(CustomerNotFound))
      ensures TruthyStr(req.CustomerId()) && TruthyInt(req.ProductId()) && req.CustomerId().value in customers &&
              FindById(products, req.ProductId().value).None? ==>
                reply == Reply(404, Error(ProductNotFound))
      ensures TruthyStr(req.CustomerId()) && TruthyInt(req.ProductId()) && req.CustomerId().value in customers &&
              FindById(products, req.ProductId().value).Some? &&
              FindById(products, req.ProductId().value).value.stock < req.Quantity() ==>
                reply == Reply(400, Error(InsufficientStock))
      ensures TruthyStr(req.CustomerId()) && TruthyInt(req.ProductId()) && req.CustomerId().value in customers &&
              FindById(products, req.ProductId().value).Some? &&
              FindById(products, req.ProductId().value).value.stock >= req.Quantity() ==>
                reply.status == 200
      ensures reply.status != 200 ==> carts == old(carts)
      ensures reply.status == 200 ==>
                && TruthyStr(req.CustomerId()) && TruthyInt(req.ProductId())
                && req.CustomerId().value in customers
                && FindById(products, req.ProductId().value).Some?
                && FindById(products, req.ProductId().value).value.stock >= req.Quantity()
                && carts == old(carts)[req.CustomerId().value :=
                     MergeLine(old(CartOf(req.CustomerId().value)),
                               NewLine(FindById(products, req.ProductId().value).value, req.Quantity()))]
                && reply.body == CartAdded(ItemAdded, carts[req.CustomerId().value])
    {
      var customerId, productId, quantity := req.CustomerId(), req.ProductId(), req.Quantity();
      if !TruthyStr(customerId) || !TruthyInt(productId) {
        return Reply(400, Error(IdsRequired));
      }
      var cid, pid := customerId.value, productId.value;
      if cid !in customers {
        return Reply(404, Error(CustomerNotFound));
      }
      var product := FindById(products, pid);
      if product.None? {
        return Reply(404, Error(ProductNotFound));
      }
      if product.value.stock < quantity {
        return Reply(400, Error(InsufficientStock));
      }
      PutLine(cid, NewLine(product.value, quantity));
      reply := Reply(200, CartAdded(ItemAdded, carts[cid]));
    }

    /** The success path of POST /api/cart: the customer's cart (created empty
        when missing) becomes the merge of `line` into it. */
    method PutLine(cid: string, line: CartLine)
      requires Valid()
      requires cid in customers && LineFromCatalogue(line, products)
      modifies this`carts
      ensures Valid()
      ensures carts == old(carts)[cid := MergeLine(old(CartOf(cid)), line)]
    {
      MergeKeepsInvariant(products, customers, carts, cid, CartOf(cid), line);
      if cid !in carts {
        carts := carts[cid := []];
      }
      var merged := AddLine(carts[cid], line);
      carts := carts[cid := merged];
    }

    /** GET /api/cart/<id>: the lines, their total, and the number of lines
        (not the sum of quantities); an empty view when the customer has no cart. */
    function GetCart(id: string): (r: Reply)
      reads this
      ensures id !in customers ==> r == Reply(404, Error(CustomerNotFound))
      ensures id in customers ==> r.status == 200 && r.body.CartView? && r.body.customerId == id
      ensures id in customers ==> r.body.items == CartOf(id) && r.body.itemCount == |CartOf(id)|
      ensures id in customers ==> r.body.total == Total(CartOf(id))
      ensures id in customers && id !in carts ==> r.body.items == [] && r.body.itemCount == 0 && r.body.total == 0
    {
      if id !in customers then Reply(404, Error(CustomerNotFound))
      else
        var items := CartOf(id);
        Reply(200, CartView(id, items, Total(items), |items|))
    }

    /** POST /api/cart/<id>/checkout: refuses an absent or empty cart;
        otherwise reports the order (its id is a parameter) and empties the cart. */
    method Checkout(id: string, orderId: string) returns (reply: Reply)
      requires Valid()
      modifies this`carts
      ensures Valid()
      ensures customers == old(customers) && products == old(products)
      ensures id !in customers ==> reply == Reply(404, Error(CustomerNotFound))
      ensures id in customers && old(CartOf(id)) == [] ==> reply == Reply(400, Error(CartEmpty))
      ensures id in customers && old(CartOf(id)) != [] ==> reply.status == 200
      ensures reply.status != 200 ==> carts == old(carts)
      ensures reply.status == 200 ==>
                && id in customers && old(CartOf(id)) != []
                && carts == old(carts)[id := []]
                && reply.body == OrderPlaced(orderId, id, Total(old(CartOf(id))), Completed)
      ensures reply.status == 200 || reply.status == 400 || reply.status == 404
    {
      if id !in customers {
        return Reply(404, Error(CustomerNotFound));
      }
      var items := CartOf(id);
      if items == [] {
        return Reply(400, Error(CartEmpty));
      }
      var total := Total(items);
      EmptyKeepsInvariant(products, customers, carts, id);
      carts := carts[id := []];
      reply := Reply(200, OrderPlaced(orderId, id, total, Completed));
    }
  }

  /** The user journey of the load test against a running server in any
      state: create a customer under a fresh non-empty id, read product 1, add
      `quantity` of it to the cart by the camelCase keys, read the cart, check
      out. Every step succeeds when the quantity is within product 1's stock,
      and the order costs the price of product 1 per item. */
  method UserJourney(s: Store, id: string, name: string, email: string, quantity: int, orderId: string)
    returns (statuses: seq<int>, paid: int)
    requires s.Valid() && s.products == InitialProducts
    requires id != "" && id !in s.customers && quantity <= 50
    modifies s
    ensures s.Valid()
    ensures statuses == [201, 200, 200, 200, 200]
    ensures paid == 99999 * quantity
  {
    var created := s.CreateCustomer(id, Some(name), Some(email));
    var product := s.GetProduct(1);
    var added := s.AddToCart(CartRequest(None, Some(id), None, Some(1), Some(quantity)));
    var cart := s.GetCart(id);
    var order := s.Checkout(id, orderId);
    statuses := [created.status, product.status, added.status, cart.status, order.status];
    paid := order.body.total;
  }

  /** A second checkout right after a successful one finds the cart empty. */
  method CheckoutTwice(s: Store, id: string, first: string, second: string) returns (r1: Reply, r2: Reply)
    requires s.Valid()
    modifies s
    ensures s.Valid()
    ensures r1.status == 200 ==> r2 == Reply(400, Error(CartEmpty))
    ensures r1.status == 200 <==> id in s.customers && old(s.CartOf(id)) != []
  {
    r1 := s.Checkout(id, first);
    r2 := s.Checkout(id, second);
  }

  /** Stock is checked per request and never decremented: on a running
      server, two requests of a fresh customer for the whole stock of product 1
      both succeed, and the cart then holds twice the stock. */
  method Oversell(s: Store, id: string) returns (r1: Reply, r2: Reply)
    requires s.Valid() && s.products == InitialProducts
    requires id != "" && id !in s.customers
    modifies s
    ensures s.Valid()
    ensures r1.status == 200 && r2.status == 200
    ensures r2.body.CartAdded? && QuantityOf(r2.body.cart, 1) == 2 * InitialProducts[0].stock
  {
    var _ := s.CreateCustomer(id, None, None);
    r1 := s.AddToCart(CartRequest(Some(id), None, Some(1), None, Some(50)));
    r2 := s.AddToCart(CartRequest(Some(id), None, Some(1), None, Some(50)));
  }
}
