// The row shapes of the relational schema and the shared request types.
// Money and counts are integers (minor currency units); `createdAt` is an
// abstract integer timestamp.
module Schema {
  import opened Wrappers

  datatype Category = Category(id: int, name: string, slug: string, imageUrl: string)

  datatype Product = Product(
    id: int, name: string, description: string,
    price: int,          // lowest currency unit
    imageUrl: string, categoryId: int,
    stock: int)

  datatype Order = Order(
    id: int, userId: string, status: string,
    totalAmount: int, address: string, createdAt: int)

  /** A line of a stored order; `price` is the product's unit price at the
      time the order was placed, a column of its own. */
  datatype OrderItem = OrderItem(id: int, orderId: int, productId: int, quantity: int, price: int)

  /** One requested line of an order: a product and a quantity, no price. */
  datatype OrderLine = OrderLine(productId: int, quantity: int)

  datatype CreateOrderRequest = CreateOrderRequest(address: string, items: seq<OrderLine>)

  const Pending: string := "pending"

  /** The values given to `insert(orders).values(...)`; an absent column
      takes its default. */
  datatype OrderValues = OrderValues(
    userId: string, status: Option<string>, totalAmount: int,
    address: string, createdAt: Option<int>)

  /** The row the database stores for an insert into `orders`, given the
      next serial id and the current time: `status` defaults to "pending"
      and `createdAt` to now. */
  function InsertedOrder(id: int, v: OrderValues, now: int): (o: Order)
    ensures o.id == id && o.userId == v.userId && o.totalAmount == v.totalAmount && o.address == v.address
    ensures v.status.None? ==> o.status == Pending
    ensures v.status.Some? ==> o.status == v.status.value
    ensures v.createdAt.None? ==> o.createdAt == now
  {
    Order(id, v.userId,
          if v.status.Some? then v.status.value else Pending,
          v.totalAmount, v.address,
          if v.createdAt.Some? then v.createdAt.value else now)
  }

  /** An object a client sends for an order, with every column of `orders`
      it might try to set. */
  datatype OrderBody = OrderBody(
    id: Option<int>, userId: Option<string>, status: Option<string>,
    totalAmount: Option<int>, address: Option<string>, createdAt: Option<int>)

  /** What `insertOrderSchema` lets through: it omits id, createdAt, userId,
      totalAmount and status, leaving the required address. */
  datatype InsertOrder = InsertOrder(address: string)

  function ParseInsertOrder(b: OrderBody): (r: Option<InsertOrder>)
    ensures r.Some? <==> b.address.Some?
    ensures r.Some? ==> r.value.address == b.address.value
  {
    if b.address.Some? then Some(InsertOrder(b.address.value)) else None
  }

  /** The omitted columns cannot influence the parsed insert: two bodies
      that agree on the address parse alike. */
  lemma InsertOrderIgnoresServerColumns(b1: OrderBody, b2: OrderBody)
    requires b1.address == b2.address
    ensures ParseInsertOrder(b1) == ParseInsertOrder(b2)
  {
  }
}
