// The client cart store: a list of cart items plus the derived `total`
// (sum of price times quantity) and `itemCount` (sum of quantities), and the
// drawer's visibility flag. Every item operation replaces `items` and
// recomputes both sums.
module Cart {
  import opened Wrappers
  import opened Tables
  import Schema

  datatype CartItem = CartItem(id: int, productId: int, name: string, price: int, quantity: int, imageUrl: string)

  function LineTotal(item: CartItem): int
  {
    item.price * item.quantity
  }

  /** Sum of price times quantity over the items. */
  function Total(items: seq<CartItem>): int
  {
    if items == [] then 0 else LineTotal(items[0]) + Total(items[1..])
  }

  /** Sum of the quantities over the items. */
  function ItemCount(items: seq<CartItem>): int
  {
    if items == [] then 0 else items[0].quantity + ItemCount(items[1..])
  }

  predicate HasProduct(items: seq<CartItem>, productId: int)
  {
    exists i :: 0 <= i < |items| && items[i].productId == productId
  }

  /** The cart's invariant: at most one item per product, and every quantity at least 1. */
  predicate WellFormed(items: seq<CartItem>)
  {
    && (forall i, j :: 0 <= i < j < |items| ==> items[i].productId != items[j].productId)
    && (forall i :: 0 <= i < |items| ==> items[i].quantity >= 1)
  }

  /** The item added for a product not yet in the cart. */
  function FromProduct(p: Schema.Product): CartItem
  {
    CartItem(p.id, p.id, p.name, p.price, 1, p.imageUrl)
  }

  /** Every item for `productId` with its quantity raised by one. */
  function Incremented(items: seq<CartItem>, productId: int): seq<CartItem>
  {
    if items == [] then []
    else
      var head := if items[0].productId == productId then items[0].(quantity := items[0].quantity + 1) else items[0];
      [head] + Incremented(items[1..], productId)
  }

  /** Every item for `productId` with its quantity set to `quantity`. */
  function WithQuantity(items: seq<CartItem>, productId: int, quantity: int): seq<CartItem>
  {
    if items == [] then []
    else
      var head := if items[0].productId == productId then items[0].(quantity := quantity) else items[0];
      [head] + WithQuantity(items[1..], productId, quantity)
  }

  function OtherThan(productId: int): CartItem -> bool
  {
    (item: CartItem) => item.productId != productId
  }

  /** The items whose product is not `productId`, in order. */
  function Removed(items: seq<CartItem>, productId: int): (r: seq<CartItem>)
    ensures forall i :: 0 <= i < |r| ==> r[i] in items && r[i].productId != productId
    ensures forall i :: 0 <= i < |items| && items[i].productId != productId ==> items[i] in r
  {
    Where(items, OtherThan(productId))
  }

  /** The items after `addItem(product)`. */
  function AddedItems(items: seq<CartItem>, p: Schema.Product): seq<CartItem>
  {
    if HasProduct(items, p.id) then Incremented(items, p.id) else items + [FromProduct(p)]
  }

  /** The items after `updateQuantity(productId, quantity)`. */
  function UpdatedItems(items: seq<CartItem>, productId: int, quantity: int): seq<CartItem>
  {
    if quantity <= 0 then Removed(items, productId) else WithQuantity(items, productId, quantity)
  }

  // ---- Item-wise behaviour of the three rebuilds ----

  lemma {:induction false} IncrementedAt(items: seq<CartItem>, productId: int)
    ensures |Incremented(items, productId)| == |items|
    ensures forall i :: 0 <= i < |items| ==>
      Incremented(items, productId)[i] ==
        if items[i].productId == productId then items[i].(quantity := items[i].quantity + 1) else items[i]
  {
    if items != [] {
      IncrementedAt(items[1..], productId);
    }
  }

  lemma {:induction false} WithQuantityAt(items: seq<CartItem>, productId: int, quantity: int)
    ensures |WithQuantity(items, productId, quantity)| == |items|
    ensures forall i :: 0 <= i < |items| ==>
      WithQuantity(items, productId, quantity)[i] ==
        if items[i].productId == productId then items[i].(quantity := quantity) else items[i]
  {
    if items != [] {
      WithQuantityAt(items[1..], productId, quantity);
    }
  }

  /** addItem on a product already in a well-formed cart: same length, that
      one item's quantity goes up by exactly one, every other item is unchanged. */
  lemma AddExisting(items: seq<CartItem>, p: Schema.Product, k: nat)
    requires WellFormed(items) && k < |items| && items[k].productId == p.id
    ensures |AddedItems(items, p)| == |items|
    ensures AddedItems(items, p)[k] == items[k].(quantity := items[k].quantity + 1)
    ensures forall i :: 0 <= i < |items| && i != k ==> AddedItems(items, p)[i] == items[i]
  {
    IncrementedAt(items, p.id);
  }

  /** addItem on a new product appends one item, copied from the product, with quantity 1. */
  lemma AddNew(items: seq<CartItem>, p: Schema.Product)
    requires !HasProduct(items, p.id)
    ensures AddedItems(items, p) == items + [CartItem(p.id, p.id, p.name, p.price, 1, p.imageUrl)]
  {
  }

  /** removeItem of an absent product leaves the items as they are. */
  lemma RemoveAbsent(items: seq<CartItem>, productId: int)
    requires !HasProduct(items, productId)
    ensures Removed(items, productId) == items
  {
    WhereAll(items, OtherThan(productId));
  }

  /** removeItem of a product the cart holds once, at index k, deletes
      exactly that item and keeps the others in order. */
  lemma RemoveHeld(items: seq<CartItem>, productId: int, k: nat)
    requires k < |items| && items[k].productId == productId
    requires forall i :: 0 <= i < |items| && i != k ==> items[i].productId != productId
    ensures Removed(items, productId) == items[..k] + items[k + 1..]
  {
    var keep := OtherThan(productId);
    assert items == items[..k] + ([items[k]] + items[k + 1..]);
    WhereAppend(items[..k], [items[k]] + items[k + 1..], keep);
    WhereAppend([items[k]], items[k + 1..], keep);
    WhereAll(items[..k], keep);
    WhereAll(items[k + 1..], keep);
  }

  /** updateQuantity with a positive quantity never inserts an item. */
  lemma SetQuantityAbsent(items: seq<CartItem>, productId: int, quantity: int)
    requires !HasProduct(items, productId)
    ensures WithQuantity(items, productId, quantity) == items
  {
  }

  // ---- The invariant is preserved ----

  lemma AddPreservesWellFormed(items: seq<CartItem>, p: Schema.Product)
    requires WellFormed(items)
    ensures WellFormed(AddedItems(items, p))
  {
    IncrementedAt(items, p.id);
  }

  lemma RemovePreservesWellFormed(items: seq<CartItem>, productId: int)
    requires WellFormed(items)
    ensures WellFormed(Removed(items, productId))
    ensures !HasProduct(Removed(items, productId), productId)
  {
    if HasProduct(items, productId) {
      var k :| 0 <= k < |items| && items[k].productId == productId;
      RemoveHeld(items, productId, k);
      DeleteKeepsWellFormed(items, k);
    } else {
      RemoveAbsent(items, productId);
    }
  }

  lemma UpdatePreservesWellFormed(items: seq<CartItem>, productId: int, quantity: int)
    requires WellFormed(items)
    ensures WellFormed(UpdatedItems(items, productId, quantity))
  {
    if quantity <= 0 {
      RemovePreservesWellFormed(items, productId);
    } else {
      WithQuantityAt(items, productId, quantity);
    }
  }

  /** Deleting one item from a well-formed cart leaves it well formed. */
  lemma DeleteKeepsWellFormed(items: seq<CartItem>, k: nat)
    requires WellFormed(items) && k < |items|
    ensures WellFormed(items[..k] + items[k + 1..])
  {
  }

  // ---- The derived sums ----

  lemma {:induction false} TotalAppend(a: seq<CartItem>, b: seq<CartItem>)
    ensures Total(a + b) == Total(a) + Total(b)
    ensures ItemCount(a + b) == ItemCount(a) + ItemCount(b)
  {
    if a == [] {
      assert a + b == b;
    } else {
      assert (a + b)[1..] == a[1..] + b;
      TotalAppend(a[1..], b);
    }
  }

  /** The sums over a cart split around its k-th item. */
  lemma TotalSplit(items: seq<CartItem>, k: nat)
    requires k < |items|
    ensures Total(items) == Total(items[..k]) + LineTotal(items[k]) + Total(items[k + 1..])
    ensures ItemCount(items) == ItemCount(items[..k]) + items[k].quantity + ItemCount(items[k + 1..])
  {
    assert items == items[..k] + ([items[k]] + items[k + 1..]);
    TotalAppend(items[..k], [items[k]] + items[k + 1..]);
    TotalAppend([items[k]], items[k + 1..]);
  }

  /** Adding a product the cart holds once, at index k, raises the
      total by the unit price the cart copied when the item was first added
      (not the product's current price) and the item count by one. */
  lemma AddHeldRaisesSums(items: seq<CartItem>, p: Schema.Product, k: nat)
    requires k < |items| && items[k].productId == p.id
    requires forall i :: 0 <= i < |items| && i != k ==> items[i].productId != p.id
    ensures Total(AddedItems(items, p)) == Total(items) + items[k].price
    ensures ItemCount(AddedItems(items, p)) == ItemCount(items) + 1
  {
    var bumped := items[k].(quantity := items[k].quantity + 1);
    assert HasProduct(items, p.id);
    IncrementedOnlyAt(items, p.id, k);
    TotalAppend(items[..k] + [bumped], items[k + 1..]);
    TotalAppend(items[..k], [bumped]);
    TotalSplit(items, k);
    BumpedLine(items[k]);
  }

  /** With a single item for the product, incrementing rewrites that item alone. */
  lemma IncrementedOnlyAt(items: seq<CartItem>, productId: int, k: nat)
    requires k < |items| && items[k].productId == productId
    requires forall i :: 0 <= i < |items| && i != k ==> items[i].productId != productId
    ensures Incremented(items, productId) == items[..k] + [items[k].(quantity := items[k].quantity + 1)] + items[k + 1..]
  {
    IncrementedAt(items, productId);
  }

  lemma BumpedLine(item: CartItem)
    ensures LineTotal(item.(quantity := item.quantity + 1)) == LineTotal(item) + item.price
  {
  }

  /** Adding a product not in the cart raises the total by the product's
      price and the item count by one. */
  lemma AddNewRaisesSums(items: seq<CartItem>, p: Schema.Product)
    requires !HasProduct(items, p.id)
    ensures Total(AddedItems(items, p)) == Total(items) + p.price
    ensures ItemCount(AddedItems(items, p)) == ItemCount(items) + 1
  {
    TotalAppend(items, [FromProduct(p)]);
  }

  /** Removing a product the cart holds once, at index k, lowers the sums by that item's share. */
  lemma RemoveLowersSums(items: seq<CartItem>, productId: int, k: nat)
    requires k < |items| && items[k].productId == productId
    requires forall i :: 0 <= i < |items| && i != k ==> items[i].productId != productId
    ensures Total(Removed(items, productId)) == Total(items) - LineTotal(items[k])
    ensures ItemCount(Removed(items, productId)) == ItemCount(items) - items[k].quantity
  {
    RemoveHeld(items, productId, k);
    TotalSplit(items, k);
    TotalAppend(items[..k], items[k + 1..]);
  }

  /** The store. `items`, `total`, `itemCount` and `isOpen` are its state. */
  class CartStore {
    var items: seq<CartItem>
    var isOpen: bool
    var total: int
    var itemCount: int

    /** The sums agree with the items, and the items are well formed. */
    ghost predicate Valid()
      reads this
    {
      WellFormed(items) && total == Total(items) && itemCount == ItemCount(items)
    }

    constructor ()
      ensures Valid()
      ensures items == [] && !isOpen && total == 0 && itemCount == 0
    {
      items, isOpen, total, itemCount := [], false, 0, 0;
    }

    method AddItem(product: Schema.Product)
      modifies this
      ensures items == AddedItems(old(items), product)
      ensures total == Total(items) && itemCount == ItemCount(items)
      ensures old(Valid()) ==> Valid()
      ensures old(Valid()) ==> itemCount == old(itemCount) + 1
      ensures old(Valid()) && !HasProduct(old(items), product.id) ==> total == old(total) + product.price
      ensures isOpen == old(isOpen)
    {
      if old(Valid()) {
        AddPreservesWellFormed(items, product);
        if HasProduct(items, product.id) {
          var k :| 0 <= k < |items| && items[k].productId == product.id;
          AddHeldRaisesSums(items, product, k);
        } else {
          AddNewRaisesSums(items, product);
        }
      }
      var found := FindFirst(items, (item: CartItem) => item.productId == product.id);
      if found.Some? {
        items := Incremented(items, product.id);
      } else {
        items := items + [FromProduct(product)];
      }
      total := Total(items);
      itemCount := ItemCount(items);
    }

    method RemoveItem(productId: int)
      modifies this
      ensures items == Removed(old(items), productId)
      ensures total == Total(items) && itemCount == ItemCount(items)
      ensures old(Valid()) ==> Valid()
      ensures !HasProduct(items, productId)
      ensures isOpen == old(isOpen)
    {
      if old(Valid()) {
        RemovePreservesWellFormed(items, productId);
      }
      items := Removed(items, productId);
      total := Total(items);
      itemCount := ItemCount(items);
    }

    method UpdateQuantity(productId: int, quantity: int)
      modifies this
      ensures quantity <= 0 ==> items == Removed(old(items), productId)
      ensures quantity > 0 ==> items == WithQuantity(old(items), productId, quantity)
      ensures total == Total(items) && itemCount == ItemCount(items)
      ensures old(Valid()) ==> Valid()
      ensures isOpen == old(isOpen)
    {
      if old(Valid()) {
        UpdatePreservesWellFormed(items, productId, quantity);
      }
      if quantity <= 0 {
        items := Removed(items, productId);
      } else {
        items := WithQuantity(items, productId, quantity);
      }
      total := Total(items);
      itemCount := ItemCount(items);
    }

    method ClearCart()
      modifies this
      ensures items == [] && total == 0 && itemCount == 0
      ensures Valid()
      ensures isOpen == old(isOpen)
    {
      items, total, itemCount := [], 0, 0;
    }

    method ToggleCart()
      modifies this
      ensures isOpen == !old(isOpen)
      ensures items == old(items) && total == old(total) && itemCount == old(itemCount)
    {
      isOpen := !isOpen;
    }

    method SetOpen(open: bool)
      modifies this
      ensures isOpen == open
      ensures items == old(items) && total == old(total) && itemCount == old(itemCount)
    {
      isOpen := open;
    }
  }
}
