/**
 * Properties of the cart handlers that relate several definitions: the
 * combined stock check, what a successful call writes, agreement with the
 * cart document methods, preservation of the store invariant, and the read
 * path.
 */
module CartProperties {
  import opened Wrappers
  import opened ProductModel
  import opened CartItems
  import opened CartModel
  import opened CartController

  /**
   * For an active product, `addToCart` rejects for stock exactly when the
   * units already in the cart plus the requested units exceed stock, and
   * otherwise succeeds: the two stock checks amount to one combined check.
   */
  lemma AddToCartStock(store: Store, catalog: Catalog, user: UserId, pid: ProductId, quantity: int)
    requires WellFormed(store) && CatalogValid(catalog)
    requires quantity >= 1
    requires Active(catalog, pid)
    ensures var r := AddToCart(store, catalog, user, pid, quantity);
      && (r.result == Err(InsufficientStock) <==> QuantityInCart(store, user, pid) + quantity > catalog[pid].stock)
      && (r.result.Ok? <==> QuantityInCart(store, user, pid) + quantity <= catalog[pid].stock)
  {
  }

  /**
   * A successful `addToCart` for a product already in the cart grows that
   * line by `quantity`, keeps its position and price snapshot, adds no line,
   * and leaves every other line as it was.
   */
  lemma AddToCartExisting(store: Store, catalog: Catalog, user: UserId, pid: ProductId, quantity: int, i: nat)
    requires WellFormed(store)
    requires user in store && i < |store[user].items| && store[user].items[i].productId == pid
    requires AddToCart(store, catalog, user, pid, quantity).result.Ok?
    ensures var items := store[user].items;
      var items' := AddToCart(store, catalog, user, pid, quantity).store[user].items;
      && |items'| == |items|
      && items'[i] == items[i].(quantity := items[i].quantity + quantity)
      && (forall k :: 0 <= k < |items| && k != i ==> items'[k] == items[k])
      && AddToCart(store, catalog, user, pid, quantity).store[user].totalItems
         == store[user].totalItems + quantity
      && AddToCart(store, catalog, user, pid, quantity).store[user].totalPrice
         == store[user].totalPrice + quantity * items[i].price
  {
    FindIndexUnique(store[user].items, pid, i);
    MergeExisting(store[user].items, pid, quantity, catalog[pid].price);
    MergeQuantity(store[user].items, pid, quantity, catalog[pid].price);
    MergeLineTotal(store[user].items, pid, quantity, catalog[pid].price);
  }

  /**
   * A successful `addToCart` for a product not in the cart (or with no cart
   * yet) appends one line at the product's current price, and the totals
   * grow by that line.
   */
  lemma AddToCartNew(store: Store, catalog: Catalog, user: UserId, pid: ProductId, quantity: int)
    requires WellFormed(store)
    requires !Contains(CartOrNew(store, user).items, pid)
    requires AddToCart(store, catalog, user, pid, quantity).result.Ok?
    ensures var c := CartOrNew(store, user);
      var c' := AddToCart(store, catalog, user, pid, quantity).store[user];
      && c'.items == c.items + [CartItem(pid, quantity, catalog[pid].price)]
      && c'.totalItems == c.totalItems + quantity
      && c'.totalPrice == c.totalPrice + quantity * catalog[pid].price
  {
    var c := CartOrNew(store, user);
    MergeQuantity(c.items, pid, quantity, catalog[pid].price);
    MergeLineTotal(c.items, pid, quantity, catalog[pid].price);
  }

  /** The handler's write is exactly the document method `addItem` at the current price. */
  lemma AddToCartIsAddItem(store: Store, catalog: Catalog, user: UserId, pid: ProductId, quantity: int)
    requires AddToCart(store, catalog, user, pid, quantity).result.Ok?
    ensures var r := AddToCart(store, catalog, user, pid, quantity);
      AddItem(CartOrNew(store, user), pid, quantity, catalog[pid].price) == Ok(r.store[user])
  {
  }

  /**
   * A successful `updateCartItem` sets the line to exactly `quantity` at the
   * current price, in place, touching no other line.
   */
  lemma UpdateCartItemSets(store: Store, catalog: Catalog, user: UserId, pid: ProductId, quantity: int, i: nat)
    requires WellFormed(store)
    requires user in store && i < |store[user].items| && store[user].items[i].productId == pid
    requires UpdateCartItem(store, catalog, user, pid, quantity).result.Ok?
    ensures var items := store[user].items;
      var c' := UpdateCartItem(store, catalog, user, pid, quantity).store[user];
      && |c'.items| == |items|
      && c'.items[i] == CartItem(pid, quantity, catalog[pid].price)
      && (forall k :: 0 <= k < |items| && k != i ==> c'.items[k] == items[k])
      && c'.totalItems == store[user].totalItems - items[i].quantity + quantity
      && c'.totalPrice == store[user].totalPrice - LineTotal(items[i]) + quantity * catalog[pid].price
  {
    var items := store[user].items;
    FindIndexUnique(items, pid, i);
    SumUpdate(items, i, CartItem(pid, quantity, catalog[pid].price), Quantity);
    SumUpdate(items, i, CartItem(pid, quantity, catalog[pid].price), LineTotal);
  }

  /**
   * Under the one-line-per-product invariant, splicing out the first line for
   * `pid` is the document method `removeItem`, and no line for `pid` remains.
   */
  lemma RemoveFromCartIsRemoveItem(store: Store, user: UserId, pid: ProductId)
    requires WellFormed(store)
    requires RemoveFromCart(store, user, pid).result.Ok?
    ensures var c' := RemoveFromCart(store, user, pid).store[user];
      && RemoveItem(store[user], pid) == Ok(c')
      && !Contains(c'.items, pid)
  {
    var items := store[user].items;
    var i := FindIndex(items, pid).value;
    FilterOutUnique(items, i);
    RemoveItemSpec(store[user], pid);
  }

  /** Removing a line lowers the item total by its quantity and the price total by its line total. */
  lemma RemoveFromCartTotals(store: Store, user: UserId, pid: ProductId, i: nat)
    requires WellFormed(store)
    requires user in store && i < |store[user].items| && store[user].items[i].productId == pid
    ensures var r := RemoveFromCart(store, user, pid);
      && r.result.Ok?
      && r.store[user].items == store[user].items[..i] + store[user].items[i + 1..]
      && r.store[user].totalItems == store[user].totalItems - store[user].items[i].quantity
      && r.store[user].totalPrice == store[user].totalPrice - LineTotal(store[user].items[i])
  {
    var c := store[user];
    var items := c.items;
    var rest := items[..i] + items[i + 1..];
    FindIndexUnique(items, pid, i);
    assert forall x :: x in rest ==> x in items;
    assert AllValid(rest);
    var saved := Save(c.(items := rest)).value;
    assert RemoveFromCart(store, user, pid).store[user] == saved;
    SumRemove(items, i, Quantity);
    assert saved.totalItems == c.totalItems - items[i].quantity;
    SumRemove(items, i, LineTotal);
    assert saved.totalPrice == c.totalPrice - LineTotal(items[i]);
  }

  /** Writing a saved, duplicate-free cart under its owner keeps the store well formed. */
  lemma InstallWellFormed(store: Store, user: UserId, c: Cart)
    requires WellFormed(store)
    requires c.userId == user && Saved(c) && UniqueProducts(c.items)
    ensures WellFormed(store[user := c])
  {
  }

  /**
   * With quantities of at least 1 and a valid catalog, `addToCart`'s save is
   * never refused, and the store stays well formed: saved carts owned by
   * their key, one line per product.
   */
  lemma AddToCartPreservesWellFormed(store: Store, catalog: Catalog, user: UserId, pid: ProductId, quantity: int)
    requires WellFormed(store) && CatalogValid(catalog)
    requires quantity >= 1
    ensures var r := AddToCart(store, catalog, user, pid, quantity);
      r.result != Err(ServerError) && WellFormed(r.store)
  {
    var r := AddToCart(store, catalog, user, pid, quantity);
    if Active(catalog, pid) {
      var cart := CartOrNew(store, user);
      assert Valid(catalog[pid]);
      MergeValid(cart.items, pid, quantity, catalog[pid].price);
      MergeUnique(cart.items, pid, quantity, catalog[pid].price);
      if r.result.Ok? {
        InstallWellFormed(store, user, r.store[user]);
      }
    }
  }

  /** `updateCartItem` likewise never hits a refused save and keeps the store well formed. */
  lemma UpdateCartItemPreservesWellFormed(store: Store, catalog: Catalog, user: UserId, pid: ProductId, quantity: int)
    requires WellFormed(store) && CatalogValid(catalog)
    requires quantity >= 1
    ensures var r := UpdateCartItem(store, catalog, user, pid, quantity);
      r.result != Err(ServerError) && WellFormed(r.store)
  {
  }

  /** `removeFromCart` likewise never hits a refused save and keeps the store well formed. */
  lemma RemoveFromCartPreservesWellFormed(store: Store, user: UserId, pid: ProductId)
    requires WellFormed(store)
    ensures var r := RemoveFromCart(store, user, pid);
      r.result != Err(ServerError) && WellFormed(r.store)
  {
  }

  /** `clearCart` likewise never hits a refused save and keeps the store well formed. */
  lemma ClearCartPreservesWellFormed(store: Store, user: UserId)
    requires WellFormed(store)
    ensures var r := CartController.ClearCart(store, user);
      r.result != Err(ServerError) && WellFormed(r.store)
  {
  }

  /** After `clearCart`, `getCart` shows an empty cart with zero totals. */
  lemma ClearThenGet(store: Store, catalog: Catalog, user: UserId)
    requires user in store
    ensures var r := CartController.ClearCart(store, user);
      r.result.Ok? && GetCart(r.store, catalog, user) == CartView([], 0, 0)
  {
  }

  /**
   * `getCart` shows exactly the stored lines whose product exists and is
   * active, and in stored order: the view of a cart whose lines are `a + b`
   * is the view of `a` followed by the view of `b`.
   */
  lemma GetCartShowsActive(store: Store, catalog: Catalog, user: UserId, x: CartItem, a: seq<CartItem>, b: seq<CartItem>)
    requires user in store
    ensures x in GetCart(store, catalog, user).items
            <==> x in store[user].items && Active(catalog, x.productId)
    ensures store[user].items == a + b ==>
      GetCart(store, catalog, user).items == Filter(a, Shown(catalog)) + Filter(b, Shown(catalog))
  {
    FilterMembership(store[user].items, Shown(catalog), x);
    FilterAppend(a, b, Shown(catalog));
  }

  /**
   * A line hidden because its product was deactivated stays stored, and
   * reappears unchanged once the product is active again.
   */
  lemma GetCartReactivation(store: Store, catalog: Catalog, user: UserId, i: nat)
    requires user in store && i < |store[user].items|
    requires store[user].items[i].productId in catalog
    ensures var pid := store[user].items[i].productId;
      var off := catalog[pid := catalog[pid].(isActive := false)];
      var on := catalog[pid := catalog[pid].(isActive := true)];
      && store[user].items[i] !in GetCart(store, off, user).items
      && store[user].items[i] in GetCart(store, on, user).items
  {
    var x := store[user].items[i];
    var pid := x.productId;
    FilterMembership(store[user].items, Shown(catalog[pid := catalog[pid].(isActive := false)]), x);
    FilterMembership(store[user].items, Shown(catalog[pid := catalog[pid].(isActive := true)]), x);
  }

  /**
   * The `isAvailable` virtual decides whether a first unit can be added: for
   * a product not yet in the cart, adding one unit succeeds exactly when the
   * product is available.
   */
  lemma AvailableAdmitsFirstUnit(store: Store, catalog: Catalog, user: UserId, pid: ProductId)
    requires WellFormed(store) && CatalogValid(catalog)
    requires pid in catalog
    requires !Contains(CartOrNew(store, user).items, pid)
    ensures AddToCart(store, catalog, user, pid, 1).result.Ok? <==> IsAvailable(catalog[pid])
  {
  }

  /**
   * As written, `getCart` hides a line whose product is inactive but returns
   * the stored totals, which still count it.
   */
  lemma GetCartStaleTotals()
    ensures var item := CartItem("p", 2, 150);
      var store := map["u" := Cart("u", [item], 2, 300)];
      var catalog := map["p" := Product(150, 5, Other, false, Ratings(0.0, 0))];
      && WellFormed(store)
      && GetCart(store, catalog, "u") == CartView([], 2, 300)
      && Sum(GetCart(store, catalog, "u").items, Quantity) != GetCart(store, catalog, "u").totalItems
  {
  }

  /** The read view with its totals recomputed from the lines it shows. */
  function GetCartRecomputed(store: Store, catalog: Catalog, user: UserId): (v: CartView)
    ensures v.items == GetCart(store, catalog, user).items
    ensures v.totalItems == Sum(v.items, Quantity)
    ensures v.totalPrice == Sum(v.items, LineTotal)
  {
    var items := GetCart(store, catalog, user).items;
    CartView(items, Sum(items, Quantity), Sum(items, LineTotal))
  }

  /** When nothing is hidden, the recomputed view is the view the handler returns. */
  lemma GetCartRecomputedAgrees(store: Store, catalog: Catalog, user: UserId)
    requires WellFormed(store)
    requires user in store ==> forall x :: x in store[user].items ==> Active(catalog, x.productId)
    ensures GetCartRecomputed(store, catalog, user) == GetCart(store, catalog, user)
  {
    if user in store {
      FilterKeepAll(store[user].items, Shown(catalog));
    }
  }
}
