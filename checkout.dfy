// The checkout page: the address check of its form, the request built from
// the cart, and what the reply, when it arrives, does to the cart.
module Checkout {
  import opened Schema
  import opened Cart

  /** A string's length as JavaScript counts it, in UTF-16 code units:
      characters beyond U+FFFF take two. */
  function Utf16Length(s: string): nat
  {
    if s == [] then 0 else (if s[0] as int > 0xFFFF then 2 else 1) + Utf16Length(s[1..])
  }

  lemma {:induction false} Utf16LengthBounds(s: string)
    ensures |s| <= Utf16Length(s) <= 2 * |s|
  {
    if s != [] {
      Utf16LengthBounds(s[1..]);
    }
  }

  /** The form schema: an address of at least 5 (UTF-16) characters. So an
      address under 3 characters is always too short, and one of 5 or more
      always long enough. */
  function CheckoutSchemaAccepts(address: string): (ok: bool)
    ensures ok <==> Utf16Length(address) >= 5
    ensures |address| < 3 ==> !ok
    ensures |address| >= 5 ==> ok
  {
    Utf16LengthBounds(address);
    Utf16Length(address) >= 5
  }

  /** The request lines built from the cart: one per item, in cart order,
      with the item's product and quantity. */
  function ProjectLines(items: seq<CartItem>): (r: seq<OrderLine>)
    ensures |r| == |items|
    ensures forall i :: 0 <= i < |items| ==> r[i] == OrderLine(items[i].productId, items[i].quantity)
  {
    if items == [] then [] else [OrderLine(items[0].productId, items[0].quantity)] + ProjectLines(items[1..])
  }

  /** The request carries no price: carts that differ only in the prices,
      names or images of their items send the same lines. */
  lemma {:induction false} ProjectionIgnoresCartPrices(a: seq<CartItem>, b: seq<CartItem>)
    requires |a| == |b|
    requires forall i :: 0 <= i < |a| ==> a[i].productId == b[i].productId && a[i].quantity == b[i].quantity
    ensures ProjectLines(a) == ProjectLines(b)
  {
    if a != [] {
      ProjectionIgnoresCartPrices(a[1..], b[1..]);
    }
  }

  /** The server's reply to an order request, as the mutation sees it. */
  datatype Reply = Created(order: Order) | Rejected(status: int)

  /** The message of the error a failed order request raises. */
  function CreateOrderErrorMessage(status: int): (m: string)
    ensures status == 401 ==> m == "You must be logged in to place an order"
    ensures status == 400 ==> m == "Invalid order data"
    ensures status != 401 && status != 400 ==> m == "Failed to create order"
  {
    if status == 401 then "You must be logged in to place an order"
    else if status == 400 then "Invalid order data"
    else "Failed to create order"
  }

  /** The three messages differ, so the message alone tells an
      unauthenticated request from an invalid one and from any other failure. */
  lemma ErrorMessageIdentifiesStatus(a: int, b: int)
    requires CreateOrderErrorMessage(a) == CreateOrderErrorMessage(b)
    ensures a == 401 <==> b == 401
    ensures a == 400 <==> b == 400
  {
  }

  /** What `onSubmit` does when it is called: redirect to log in, or hand
      the request to the mutation and return at once. */
  datatype SubmitResult = RedirectedToLogin | Sent(request: CreateOrderRequest)

  /** `onSubmit`, given the cart's items at the moment it is called. It does
      not touch the cart; the reply is handled later by `OnReply`. */
  function OnSubmit(items: seq<CartItem>, address: string, loggedIn: bool): (r: SubmitResult)
    ensures r == RedirectedToLogin <==> !loggedIn
    ensures r.Sent? ==> r.request.address == address && r.request.items == ProjectLines(items)
  {
    if !loggedIn then RedirectedToLogin else Sent(CreateOrderRequest(address, ProjectLines(items)))
  }

  /** What the page does with the reply. */
  datatype ReplyOutcome = Placed(order: Order) | Reported(message: string) | Dropped

  /** The `onSuccess` / `onError` callbacks passed to `mutate`, run when the
      reply arrives. The cart may have been edited since the request was sent
      (the cart drawer stays usable meanwhile); a success empties whatever it
      holds then. Once the page has unmounted the callbacks do not run, so an
      order placed after leaving the page leaves the cart as it is. */
  method OnReply(cart: CartStore, reply: Reply, mounted: bool) returns (o: ReplyOutcome)
    modifies cart
    ensures !mounted ==> o == Dropped
    ensures mounted && reply.Created? ==> o == Placed(reply.order)
    ensures mounted && reply.Rejected? ==> o == Reported(CreateOrderErrorMessage(reply.status))
    ensures o.Placed? ==> cart.items == [] && cart.total == 0 && cart.itemCount == 0 && cart.Valid()
    ensures !o.Placed? ==> cart.items == old(cart.items) && cart.total == old(cart.total) && cart.itemCount == old(cart.itemCount)
    ensures cart.isOpen == old(cart.isOpen)
  {
    if !mounted {
      return Dropped;
    }
    match reply
    case Created(order) =>
      cart.ClearCart();
      o := Placed(order);
    case Rejected(status) =>
      o := Reported(CreateOrderErrorMessage(status));
  }

  datatype CheckoutResult =
    | EmptyCartView        // no form is rendered for an empty cart
    | AuthLoading          // a placeholder stands where the form would be
    | LoginPrompt          // the form is replaced by a log-in button
    | SubmitDisabled       // the submit button is disabled while a submission is pending
    | AddressTooShort      // the form shows the schema's message; onSubmit is not called
    | Submitted(request: CreateOrderRequest)

  /** Pressing "Confirm & Pay" on the checkout page, given the cart's items. */
  function Confirm(items: seq<CartItem>, address: string, authLoading: bool, loggedIn: bool, isSubmitting: bool)
    : (r: CheckoutResult)
    ensures r.Submitted? <==>
      |items| > 0 && !authLoading && loggedIn && !isSubmitting && CheckoutSchemaAccepts(address)
    ensures |items| == 0 ==> r == EmptyCartView
    ensures r.Submitted? ==> Sent(r.request) == OnSubmit(items, address, loggedIn)
    ensures r.Submitted? ==> r.request == CreateOrderRequest(address, ProjectLines(items))
  {
    if |items| == 0 then EmptyCartView
    else if authLoading then AuthLoading
    else if !loggedIn then LoginPrompt
    else if isSubmitting then SubmitDisabled
    else if !CheckoutSchemaAccepts(address) then AddressTooShort
    else Submitted(OnSubmit(items, address, loggedIn).request)
  }
}
