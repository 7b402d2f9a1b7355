/**
 * The cart document: one per user, an ordered list of lines, and the two
 * totals the pre-save hook derives from the lines. Saving validates every
 * line against the schema and then recomputes the totals; the document
 * methods edit the lines and save.
 */
module CartModel {
  import opened Wrappers
  import opened ProductModel
  import opened CartItems

  type UserId = string

  datatype Cart = Cart(userId: UserId, items: seq<CartItem>, totalItems: int, totalPrice: int)

  /** A cart as first created for a user: no lines, totals at their default 0. */
  function NewCart(user: UserId): (c: Cart)
    ensures c.userId == user && c.items == []
    ensures c.totalItems == 0 && c.totalPrice == 0
  {
    Cart(user, [], 0, 0)
  }

  /** The totals agree with the lines: item count and sum of price times quantity. */
  predicate TotalsConsistent(c: Cart) {
    && c.totalItems == Sum(c.items, Quantity)
    && c.totalPrice == Sum(c.items, LineTotal)
  }

  /** What a persisted cart satisfies: valid lines and totals that match them. */
  predicate Saved(c: Cart) {
    AllValid(c.items) && TotalsConsistent(c)
  }

  /** Schema validation rejected a line (quantity below 1 or negative price). */
  datatype SaveError = InvalidItem

  /**
   * Persisting a cart: the document is validated, then the pre-save hook
   * recomputes `totalItems` and `totalPrice` from the lines.
   */
  function Save(c: Cart): (r: Result<Cart, SaveError>)
    ensures r.Ok? <==> AllValid(c.items)
    ensures r.Ok? ==> r.value.userId == c.userId && r.value.items == c.items
    ensures r.Ok? ==> Saved(r.value)
  {
    if AllValid(c.items) then
      Ok(c.(totalItems := Sum(c.items, Quantity), totalPrice := Sum(c.items, LineTotal)))
    else
      Err(InvalidItem)
  }

  /** Saving again changes nothing, and the totals of a saved cart are in range. */
  lemma SaveIdempotent(c: Cart)
    requires Save(c).Ok?
    ensures Save(Save(c).value) == Save(c)
    ensures Save(c).value.totalItems >= |c.items|
    ensures Save(c).value.totalPrice >= 0
  {
    ValidTotalsBounds(c.items);
  }

  /** `addItem`: merge the line for `pid` (or append it) and save. */
  function AddItem(c: Cart, pid: ProductId, quantity: int, price: int): (r: Result<Cart, SaveError>)
    ensures r.Ok? ==> r.value.userId == c.userId && r.value.items == Merge(c.items, pid, quantity, price)
  {
    Save(c.(items := Merge(c.items, pid, quantity, price)))
  }

  /**
   * After `addItem` the cart holds exactly `quantity` more units, priced at the
   * existing line's snapshot when the product was already there.
   */
  lemma AddItemTotals(c: Cart, pid: ProductId, quantity: int, price: int)
    requires Saved(c)
    requires quantity >= 1 && price >= 0
    ensures AddItem(c, pid, quantity, price).Ok?
    ensures AddItem(c, pid, quantity, price).value.totalItems == c.totalItems + quantity
    ensures var unit := if Contains(c.items, pid) then c.items[FindIndex(c.items, pid).value].price else price;
      AddItem(c, pid, quantity, price).value.totalPrice == c.totalPrice + quantity * unit
  {
    MergeValid(c.items, pid, quantity, price);
    MergeQuantity(c.items, pid, quantity, price);
    MergeLineTotal(c.items, pid, quantity, price);
  }

  /** `removeItem`: drop every line for `pid`, keeping the others in order, and save. */
  function RemoveItem(c: Cart, pid: ProductId): (r: Result<Cart, SaveError>)
    ensures r.Ok? <==> AllValid(Filter(c.items, NotFor(pid)))
    ensures r.Ok? ==> r.value.items == Filter(c.items, NotFor(pid))
  {
    Save(c.(items := Filter(c.items, NotFor(pid))))
  }

  /** `removeItem` leaves no line for `pid`, keeps every other line, and is a no-op on lines when `pid` is absent. */
  lemma RemoveItemSpec(c: Cart, pid: ProductId)
    requires Saved(c)
    ensures RemoveItem(c, pid).Ok?
    ensures !Contains(RemoveItem(c, pid).value.items, pid)
    ensures forall x :: x in c.items && x.productId != pid ==> x in RemoveItem(c, pid).value.items
    ensures !Contains(c.items, pid) ==> RemoveItem(c, pid) == Ok(c)
  {
    var kept := Filter(c.items, NotFor(pid));
    forall x | x in kept
      ensures ValidItem(x) && x.productId != pid
    {
      FilterMembership(c.items, NotFor(pid), x);
    }
    forall x | x in c.items && x.productId != pid
      ensures x in kept
    {
      FilterMembership(c.items, NotFor(pid), x);
    }
    if !Contains(c.items, pid) {
      FilterKeepAll(c.items, NotFor(pid));
    }
  }

  /** `updateItemQuantity`: set the first line for `pid` to `quantity` (price untouched) and save. */
  function UpdateItemQuantity(c: Cart, pid: ProductId, quantity: int): (r: Result<Cart, SaveError>)
    ensures r.Ok? ==> |r.value.items| == |c.items|
    ensures r.Ok? && !Contains(c.items, pid) ==> r.value.items == c.items
  {
    match FindIndex(c.items, pid)
    case Some(i) => Save(c.(items := c.items[i := c.items[i].(quantity := quantity)]))
    case None => Save(c)
  }

  /** Only the matching line changes, and only in its quantity; the totals move by the difference. */
  lemma UpdateItemQuantitySpec(c: Cart, pid: ProductId, quantity: int, i: nat)
    requires Saved(c) && UniqueProducts(c.items)
    requires i < |c.items| && c.items[i].productId == pid
    requires quantity >= 1
    ensures var r := UpdateItemQuantity(c, pid, quantity);
      && r.Ok?
      && r.value.items[i] == CartItem(pid, quantity, c.items[i].price)
      && (forall k :: 0 <= k < |c.items| && k != i ==> r.value.items[k] == c.items[k])
      && r.value.totalItems == c.totalItems - c.items[i].quantity + quantity
      && r.value.totalPrice == c.totalPrice - LineTotal(c.items[i]) + quantity * c.items[i].price
  {
    FindIndexUnique(c.items, pid, i);
    SumUpdate(c.items, i, c.items[i].(quantity := quantity), Quantity);
    SumUpdate(c.items, i, c.items[i].(quantity := quantity), LineTotal);
  }

  /** `clearCart`: no lines, both totals zero. */
  function ClearCart(c: Cart): (r: Result<Cart, SaveError>)
    ensures r.Ok?
    ensures r.value.userId == c.userId
    ensures r.value.items == [] && r.value.totalItems == 0 && r.value.totalPrice == 0
  {
    Save(c.(items := []))
  }
}
