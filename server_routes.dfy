// The REST handlers of the order flow: product and category lookups, order
// creation (authentication gate, pricing from the catalog, persistence,
// error mapping) and the ownership check when an order is read back.
module ServerRoutes {
  import opened Wrappers
  import opened Tables
  import opened Schema
  import opened ApiRoutes
  import opened Storage

  /** What a handler learns about the caller: `req.isAuthenticated()` and
      `req.user.claims?.sub`. */
  datatype Session = Session(authenticated: bool, sub: Option<string>)

  /** An HTTP response: a status code with a JSON body, or an error status with its message. */
  datatype Response<T> = Ok(code: int, value: T) | Err(code: int, message: string)

  /** `claims.sub` is present and truthy (a non-empty string). */
  predicate HasSubject(s: Session)
  {
    s.sub.Some? && s.sub.value != ""
  }

  /** GET /api/products/:id */
  function GetProductRoute(db: DatabaseStorage, id: int): (r: Response<Product>)
    reads db
    ensures r.Err? <==> forall i :: 0 <= i < |db.products| ==> db.products[i].id != id
    ensures r.Err? ==> r == Err(404, "Product not found")
    ensures r.Ok? ==> r.code == 200 && r.value in db.products && r.value.id == id
  {
    match db.GetProduct(id)
    case None => Err(404, "Product not found")
    case Some(p) => Ok(200, p)
  }

  /** GET /api/categories/:id */
  function GetCategoryRoute(db: DatabaseStorage, id: int): (r: Response<Category>)
    reads db
    ensures r.Err? <==> forall i :: 0 <= i < |db.categories| ==> db.categories[i].id != id
    ensures r.Err? ==> r == Err(404, "Category not found")
    ensures r.Ok? ==> r.code == 200 && r.value in db.categories && r.value.id == id
  {
    match db.GetCategory(id)
    case None => Err(404, "Category not found")
    case Some(c) => Ok(200, c)
  }

  /** GET /api/orders/:id: 401, then 404, then 403, then the order. */
  function GetOrderRoute(db: DatabaseStorage, session: Session, id: int): (r: Response<Order>)
    reads db
    ensures r == Err(401, "Unauthorized") <==> !session.authenticated
    ensures r == Err(404, "Order not found") <==>
      session.authenticated && forall i :: 0 <= i < |db.orders| ==> db.orders[i].id != id
    ensures r == Err(403, "Forbidden") <==>
      session.authenticated && db.GetOrder(id).Some? && Some(db.GetOrder(id).value.userId) != session.sub
    ensures r.Ok? <==>
      session.authenticated && db.GetOrder(id).Some? && Some(db.GetOrder(id).value.userId) == session.sub
    ensures r.Ok? ==> r.code == 200 && r.value in db.orders && r.value.id == id && Some(r.value.userId) == session.sub
  {
    if !session.authenticated then Err(401, "Unauthorized")
    else
      match db.GetOrder(id)
      case None => Err(404, "Order not found")
      case Some(order) =>
        if Some(order.userId) != session.sub then Err(403, "Forbidden") else Ok(200, order)
  }

  /** The pricing loop of POST /api/orders: the total over the requested
      lines of catalog price times quantity, unknown products adding nothing. */
  method ComputeTotal(db: DatabaseStorage, lines: seq<OrderLine>) returns (total: int)
    ensures total == PricedTotal(db.products, lines)
  {
    total := 0;
    for i := 0 to |lines|
      invariant total == PricedTotal(db.products, lines[..i])
    {
      assert lines[..i + 1][..i] == lines[..i];
      var product := db.GetProduct(lines[i].productId);
      if product.Some? {
        total := total + product.value.price * lines[i].quantity;
      }
    }
    assert lines[..|lines|] == lines;
  }

  /** The order-total theorem: with the catalog fixed, the items stored for a
      new order add up to the total priced from that catalog. */
  lemma StoredItemsAddUpToTotal(oldItems: seq<OrderItem>, orderId: int, products: seq<Product>,
                                lines: seq<OrderLine>, firstId: int)
    requires Where(oldItems, OfOrder(orderId)) == []
    ensures ItemsTotal(Where(oldItems + Snapshot(orderId, products, lines, firstId), OfOrder(orderId)))
            == PricedTotal(products, lines)
  {
    var snap := Snapshot(orderId, products, lines, firstId);
    WhereAppend(oldItems, snap, OfOrder(orderId));
    SnapshotRows(orderId, products, lines, firstId);
    WhereAll(snap, OfOrder(orderId));
    assert [] + snap == snap;
    SnapshotTotal(orderId, products, lines, firstId);
  }

  /** POST /api/orders. `now` is the database clock; `insertFails` stands for
      the storage raising on the first insert. */
  method CreateOrderRoute(db: DatabaseStorage, session: Session, body: Json, now: int, insertFails: bool)
    returns (res: Response<Order>)
    requires db.Valid()
    modifies db
    ensures db.Valid()
    ensures db.products == old(db.products) && db.categories == old(db.categories)
    ensures !session.authenticated ==> res == Err(401, "Unauthorized")
    ensures session.authenticated && ParseCreateOrderInput(body).None? ==> res == Err(400, "Invalid order request")
    ensures session.authenticated && ParseCreateOrderInput(body).Some? && !HasSubject(session) ==>
      res == Err(500, "User ID missing in session")
    ensures session.authenticated && ParseCreateOrderInput(body).Some? && HasSubject(session) && insertFails ==>
      res == Err(400, "Invalid order request")
    ensures res.Err? ==> db.orders == old(db.orders) && db.orderItems == old(db.orderItems)
    ensures res.Ok? <==>
      session.authenticated && ParseCreateOrderInput(body).Some? && HasSubject(session) && !insertFails
    ensures res.Ok? ==>
      var input := ParseCreateOrderInput(body).value;
      && res.code == 201
      && res.value.id == old(db.nextOrderId)
      && res.value.createdAt == now
      && db.orders == old(db.orders) + [res.value]
      && db.orderItems == old(db.orderItems) + Snapshot(res.value.id, db.products, input.items, old(db.nextOrderItemId))
      && res.value.userId == session.sub.value
      && res.value.status == Pending
      && res.value.address == input.address
      && res.value.totalAmount == PricedTotal(db.products, input.items)
      && ItemsTotal(Where(db.orderItems, OfOrder(res.value.id))) == res.value.totalAmount
  {
    if !session.authenticated {
      return Err(401, "Unauthorized");
    }
    var input := ParseCreateOrderInput(body);
    if input.None? {
      return Err(400, "Invalid order request");
    }
    var total := ComputeTotal(db, input.value.items);
    if !HasSubject(session) {
      return Err(500, "User ID missing in session");
    }
    ghost var items0, firstId := db.orderItems, db.nextOrderItemId;
    var order := db.CreateOrder(session.sub.value, input.value, total, now, insertFails);
    if order.None? {
      return Err(400, "Invalid order request");
    }
    StoredItemsAddUpToTotal(items0, order.value.id, db.products, input.value.items, firstId);
    res := Ok(201, order.value);
  }
}
