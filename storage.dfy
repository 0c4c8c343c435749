// The storage layer: the database tables as sequences of rows in one object,
// the reads as filters over them, and `createOrder` as one insert into
// `orders` followed by one insert into `orderItems` per priced line.
module Storage {
  import opened Wrappers
  import opened Tables
  import opened Schema

  /** A user row; only its id matters here. */
  datatype User = User(id: string, email: Option<string>)

  function ProductWithId(id: int): Product -> bool { (p: Product) => p.id == id }
  function CategoryWithId(id: int): Category -> bool { (c: Category) => c.id == id }
  function OrderWithId(id: int): Order -> bool { (o: Order) => o.id == id }
  function InCategory(categoryId: int): Product -> bool { (p: Product) => p.categoryId == categoryId }
  function OwnedBy(userId: string): Order -> bool { (o: Order) => o.userId == userId }
  function OfOrder(orderId: int): OrderItem -> bool { (item: OrderItem) => item.orderId == orderId }

  /** The product a catalog holds under `id`, if any (`getProduct`). */
  function LookupProduct(products: seq<Product>, id: int): Option<Product>
  {
    FindFirst(products, ProductWithId(id))
  }

  /** When several rows carry the id, the lookup returns the first of them,
      as destructuring the first row of the query result does. */
  lemma LookupProductIsFirstRow(products: seq<Product>, id: int, k: nat)
    requires k < |products| && products[k].id == id
    ensures LookupProduct(products, id).Some?
    ensures exists j :: 0 <= j <= k && products[j] == LookupProduct(products, id).value
                        && forall i :: 0 <= i < j ==> products[i].id != id
  {
    FindFirstIsFirst(products, ProductWithId(id), k);
  }

  // ---- Pricing ----

  /** What a requested line adds to the order total: the catalog's price
      times the requested quantity, or nothing for an unknown product. */
  function LinePrice(products: seq<Product>, line: OrderLine): int
  {
    match LookupProduct(products, line.productId)
    case Some(p) => p.price * line.quantity
    case None => 0
  }

  /** The order total over the requested lines, accumulated front to back. */
  function PricedTotal(products: seq<Product>, lines: seq<OrderLine>): int
  {
    if lines == [] then 0
    else PricedTotal(products, lines[..|lines| - 1]) + LinePrice(products, lines[|lines| - 1])
  }

  /** Sum of the snapshotted price times quantity over stored order items. */
  function ItemsTotal(items: seq<OrderItem>): int
  {
    if items == [] then 0
    else ItemsTotal(items[..|items| - 1]) + items[|items| - 1].price * items[|items| - 1].quantity
  }

  /** The order items `createOrder` inserts for `lines`: one per line whose
      product exists, in request order, with ids drawn from `firstId` on. */
  function Snapshot(orderId: int, products: seq<Product>, lines: seq<OrderLine>, firstId: int): seq<OrderItem>
  {
    if lines == [] then []
    else
      var prev := Snapshot(orderId, products, lines[..|lines| - 1], firstId);
      var line := lines[|lines| - 1];
      match LookupProduct(products, line.productId)
      case Some(p) => prev + [OrderItem(firstId + |prev|, orderId, line.productId, line.quantity, p.price)]
      case None => prev
  }

  /** Extending the lines by one extends the snapshot by at most one item. */
  lemma SnapshotStep(orderId: int, products: seq<Product>, lines: seq<OrderLine>, i: nat, firstId: int)
    requires i < |lines|
    ensures LookupProduct(products, lines[i].productId).None? ==>
      Snapshot(orderId, products, lines[..i + 1], firstId) == Snapshot(orderId, products, lines[..i], firstId)
    ensures LookupProduct(products, lines[i].productId).Some? ==>
      Snapshot(orderId, products, lines[..i + 1], firstId) == Snapshot(orderId, products, lines[..i], firstId)
        + [OrderItem(firstId + |Snapshot(orderId, products, lines[..i], firstId)|, orderId, lines[i].productId,
                     lines[i].quantity, LookupProduct(products, lines[i].productId).value.price)]
  {
    assert lines[..i + 1][..i] == lines[..i];
  }

  function Priced(products: seq<Product>): OrderLine -> bool
  {
    (line: OrderLine) => LookupProduct(products, line.productId).Some?
  }

  /** The snapshot's rows carry consecutive ids from `firstId` and the new order's id. */
  lemma {:induction false} SnapshotRows(orderId: int, products: seq<Product>, lines: seq<OrderLine>, firstId: int)
    ensures forall i :: 0 <= i < |Snapshot(orderId, products, lines, firstId)| ==>
      Snapshot(orderId, products, lines, firstId)[i].id == firstId + i &&
      Snapshot(orderId, products, lines, firstId)[i].orderId == orderId
  {
    if lines != [] {
      SnapshotRows(orderId, products, lines[..|lines| - 1], firstId);
    }
  }

  /** The snapshot, item by item: exactly the lines whose product exists, in
      order, each with the line's product and quantity and the product's
      current price. */
  lemma {:induction false} SnapshotLines(orderId: int, products: seq<Product>, lines: seq<OrderLine>, firstId: int)
    ensures var snap := Snapshot(orderId, products, lines, firstId);
            var kept := Where(lines, Priced(products));
      && |snap| == |kept|
      && forall i :: 0 <= i < |snap| ==>
           && snap[i].productId == kept[i].productId
           && snap[i].quantity == kept[i].quantity
           && LookupProduct(products, kept[i].productId).Some?
           && snap[i].price == LookupProduct(products, kept[i].productId).value.price
  {
    if lines != [] {
      var init := lines[..|lines| - 1];
      var line := lines[|lines| - 1];
      SnapshotLines(orderId, products, init, firstId);
      assert lines == init + [line];
      WhereAppend(init, [line], Priced(products));
    }
  }

  /** The stored items of a fresh order add up to the total the handler computes. */
  lemma {:induction false} SnapshotTotal(orderId: int, products: seq<Product>, lines: seq<OrderLine>, firstId: int)
    ensures ItemsTotal(Snapshot(orderId, products, lines, firstId)) == PricedTotal(products, lines)
  {
    if lines != [] {
      var init := lines[..|lines| - 1];
      SnapshotTotal(orderId, products, init, firstId);
      var prev := Snapshot(orderId, products, init, firstId);
      var snap := Snapshot(orderId, products, lines, firstId);
      if LookupProduct(products, lines[|lines| - 1].productId).Some? {
        assert snap[..|snap| - 1] == prev;
      }
    }
  }

  /** The total depends on the catalog only through the prices of the
      requested products: two catalogs that agree on them give one total. */
  lemma {:induction false} PricedTotalDependsOnPrices(p1: seq<Product>, p2: seq<Product>, lines: seq<OrderLine>)
    requires forall i :: 0 <= i < |lines| ==>
      (LookupProduct(p1, lines[i].productId).Some? <==> LookupProduct(p2, lines[i].productId).Some?)
    requires forall i :: 0 <= i < |lines| && LookupProduct(p1, lines[i].productId).Some? ==>
      LookupProduct(p1, lines[i].productId).value.price == LookupProduct(p2, lines[i].productId).value.price
    ensures PricedTotal(p1, lines) == PricedTotal(p2, lines)
  {
    if lines != [] {
      PricedTotalDependsOnPrices(p1, p2, lines[..|lines| - 1]);
    }
  }

  /** No stored item refers to an order id not yet handed out. */
  lemma NoItemsYet(items: seq<OrderItem>, orderId: int)
    requires forall i :: 0 <= i < |items| ==> items[i].orderId < orderId
    ensures Where(items, OfOrder(orderId)) == []
  {
  }

  // ---- Newest first ----

  predicate NewestFirst(orders: seq<Order>)
  {
    forall i, j :: 0 <= i < j < |orders| ==> orders[i].createdAt >= orders[j].createdAt
  }

  function InsertByDate(o: Order, sorted: seq<Order>): seq<Order>
  {
    if sorted == [] || o.createdAt >= sorted[0].createdAt then [o] + sorted
    else [sorted[0]] + InsertByDate(o, sorted[1..])
  }

  /** The orders by `createdAt`, descending (an insertion sort). */
  function SortNewestFirst(orders: seq<Order>): seq<Order>
  {
    if orders == [] then [] else InsertByDate(orders[0], SortNewestFirst(orders[1..]))
  }

  /** Inserting adds exactly `o` to the orders. */
  lemma {:induction false} InsertByDateElements(o: Order, sorted: seq<Order>)
    ensures multiset(InsertByDate(o, sorted)) == multiset([o]) + multiset(sorted)
    ensures forall k :: 0 <= k < |InsertByDate(o, sorted)| ==>
      InsertByDate(o, sorted)[k] == o || InsertByDate(o, sorted)[k] in sorted
  {
    if !(sorted == [] || o.createdAt >= sorted[0].createdAt) {
      InsertByDateElements(o, sorted[1..]);
      assert sorted == [sorted[0]] + sorted[1..];
    }
  }

  lemma {:induction false} InsertByDateSorted(o: Order, sorted: seq<Order>)
    requires NewestFirst(sorted)
    ensures NewestFirst(InsertByDate(o, sorted))
  {
    if !(sorted == [] || o.createdAt >= sorted[0].createdAt) {
      var head := sorted[0];
      var rest := InsertByDate(o, sorted[1..]);
      InsertByDateSorted(o, sorted[1..]);
      InsertByDateElements(o, sorted[1..]);
      forall k | 0 <= k < |rest| ensures head.createdAt >= rest[k].createdAt {
        if rest[k] != o {
          var m :| 0 <= m < |sorted[1..]| && sorted[1..][m] == rest[k];
          assert sorted[1..][m] == sorted[m + 1];
        }
      }
      var r := [head] + rest;
      forall i, j | 0 <= i < j < |r| ensures r[i].createdAt >= r[j].createdAt {
        assert r[j] == rest[j - 1];
        if i > 0 { assert r[i] == rest[i - 1]; }
      }
    }
  }

  /** Sorting orders yields them newest first, as a permutation of the input. */
  lemma {:induction false} SortNewestFirstCorrect(orders: seq<Order>)
    ensures NewestFirst(SortNewestFirst(orders))
    ensures multiset(SortNewestFirst(orders)) == multiset(orders)
  {
    if orders != [] {
      SortNewestFirstCorrect(orders[1..]);
      InsertByDateSorted(orders[0], SortNewestFirst(orders[1..]));
      InsertByDateElements(orders[0], SortNewestFirst(orders[1..]));
      assert orders == [orders[0]] + orders[1..];
    }
  }

  // ---- The tables ----

  class DatabaseStorage {
    var products: seq<Product>
    var categories: seq<Category>
    var orders: seq<Order>
    var orderItems: seq<OrderItem>
    var nextOrderId: int       // the serial sequence of `orders.id`
    var nextOrderItemId: int   // the serial sequence of `order_items.id`

    /** Ids already handed out lie below the serial counters, and every order
        item refers to an order id already handed out. */
    ghost predicate Valid()
      reads this
    {
      && (forall i :: 0 <= i < |orders| ==> orders[i].id < nextOrderId)
      && (forall i :: 0 <= i < |orderItems| ==> orderItems[i].id < nextOrderItemId && orderItems[i].orderId < nextOrderId)
    }

    constructor (products: seq<Product>, categories: seq<Category>)
      ensures Valid()
      ensures this.products == products && this.categories == categories
      ensures orders == [] && orderItems == []
    {
      this.products, this.categories := products, categories;
      orders, orderItems := [], [];
      nextOrderId, nextOrderItemId := 1, 1;
    }

    /** `getUserByUsername`: the users table has no username column, so nothing is found. */
    function GetUserByUsername(username: string): (r: Option<User>)
      ensures r.None?
    {
      None
    }

    function GetProduct(id: int): (r: Option<Product>)
      reads this
      ensures r.Some? ==> r.value in products && r.value.id == id
      ensures r.None? <==> forall i :: 0 <= i < |products| ==> products[i].id != id
    {
      LookupProduct(products, id)
    }

    function GetCategory(id: int): (r: Option<Category>)
      reads this
      ensures r.Some? ==> r.value in categories && r.value.id == id
      ensures r.None? <==> forall i :: 0 <= i < |categories| ==> categories[i].id != id
    {
      FindFirst(categories, CategoryWithId(id))
    }

    function GetOrder(id: int): (r: Option<Order>)
      reads this
      ensures r.Some? ==> r.value in orders && r.value.id == id
      ensures r.None? <==> forall i :: 0 <= i < |orders| ==> orders[i].id != id
    {
      FindFirst(orders, OrderWithId(id))
    }

    /** `getProducts(categoryId, search)`: a non-zero category filters the
        products to that category; `search` is not used. */
    function GetProducts(categoryId: Option<int>, search: Option<string>): (r: seq<Product>)
      reads this
      ensures categoryId.None? || categoryId.value == 0 ==> r == products
      ensures categoryId.Some? && categoryId.value != 0 ==>
        && (forall i :: 0 <= i < |r| ==> r[i] in products && r[i].categoryId == categoryId.value)
        && (forall i :: 0 <= i < |products| && products[i].categoryId == categoryId.value ==> products[i] in r)
    {
      if categoryId.Some? && categoryId.value != 0 then Where(products, InCategory(categoryId.value)) else products
    }

    /** `getOrders(userId)`: the user's orders, newest first. */
    function GetOrders(userId: string): (r: seq<Order>)
      reads this
      ensures NewestFirst(r)
      ensures forall i :: 0 <= i < |r| ==> r[i].userId == userId
      ensures forall o :: o in multiset(r) ==> multiset(r)[o] == multiset(orders)[o]
      ensures forall i :: 0 <= i < |orders| && orders[i].userId == userId ==> orders[i] in r
    {
      var mine := Where(orders, OwnedBy(userId));
      SortNewestFirstCorrect(mine);
      forall o | o in multiset(SortNewestFirst(mine))
        ensures multiset(SortNewestFirst(mine))[o] == multiset(orders)[o]
      {
        WhereMultiset(orders, OwnedBy(userId), o);
      }
      forall i | 0 <= i < |SortNewestFirst(mine)| ensures SortNewestFirst(mine)[i].userId == userId {
        assert SortNewestFirst(mine)[i] in multiset(mine);
      }
      forall i | 0 <= i < |orders| && orders[i].userId == userId ensures orders[i] in SortNewestFirst(mine) {
        assert orders[i] in multiset(mine);
      }
      SortNewestFirst(mine)
    }

    /** `createOrder(userId, request, totalAmount)`. `now` stands for the
        database clock; `insertFails` for the first insert raising, in which
        case nothing is written and no order is returned. */
    method CreateOrder(userId: string, request: CreateOrderRequest, totalAmount: int, now: int, insertFails: bool)
      returns (r: Option<Order>)
      requires Valid()
      modifies this
      ensures Valid()
      ensures products == old(products) && categories == old(categories)
      ensures insertFails ==> r.None? && orders == old(orders) && orderItems == old(orderItems)
      ensures !insertFails ==> r.Some?
      ensures r.Some? ==>
        && r.value == Order(old(nextOrderId), userId, Pending, totalAmount, request.address, now)
        && orders == old(orders) + [r.value]
        && orderItems == old(orderItems) + Snapshot(r.value.id, products, request.items, old(nextOrderItemId))
        && Where(old(orderItems), OfOrder(r.value.id)) == []
    {
      if insertFails {
        return None;
      }
      var order := InsertedOrder(nextOrderId, OrderValues(userId, Some(Pending), totalAmount, request.address, None), now);
      NoItemsYet(orderItems, order.id);
      orders := orders + [order];
      nextOrderId := nextOrderId + 1;
      InsertOrderItems(order.id, request.items);
      r := Some(order);
    }

    /** The loop of `createOrder`: for each requested line whose product
        exists, insert an order item with the product's current price. */
    method InsertOrderItems(orderId: int, lines: seq<OrderLine>)
      requires Valid() && orderId < nextOrderId
      modifies this`orderItems, this`nextOrderItemId
      ensures Valid()
      ensures orderItems == old(orderItems) + Snapshot(orderId, products, lines, old(nextOrderItemId))
    {
      ghost var items0, firstId := orderItems, nextOrderItemId;
      ghost var added: seq<OrderItem> := [];
      assert orderItems == items0 + added;
      var i := 0;
      while i < |lines|
        invariant 0 <= i <= |lines|
        invariant added == Snapshot(orderId, products, lines[..i], firstId)
        invariant orderItems == items0 + added && nextOrderItemId == firstId + |added|
      {
        var line := lines[i];
        SnapshotStep(orderId, products, lines, i, firstId);
        var product := GetProduct(line.productId);
        assert product == LookupProduct(products, line.productId);
        if product.Some? {
          var row := OrderItem(nextOrderItemId, orderId, line.productId, line.quantity, product.value.price);
          assert items0 + (added + [row]) == (items0 + added) + [row];
          orderItems := orderItems + [row];
          added := added + [row];
          nextOrderItemId := nextOrderItemId + 1;
        }
        assert added == Snapshot(orderId, products, lines[..i + 1], firstId);
        i := i + 1;
      }
      assert lines[..i] == lines;
      SnapshotRows(orderId, products, lines, firstId);
    }
  }
}
