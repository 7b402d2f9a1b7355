/**
 * The five cart handlers. The product collection is a map from product id to
 * product and the cart collection a map from user id to that user's cart.
 * Each mutating handler reads, validates, and then either rejects with an
 * error, leaving the store as it was, or writes the saved cart back.
 */
module CartController {
  import opened Wrappers
  import opened ProductModel
  import opened CartItems
  import opened CartModel

  type Catalog = map<ProductId, Product>
  type Store = map<UserId, Cart>

  /** The caller-facing failures; `ServerError` is a save the schema refused. */
  datatype Error =
    | ProductUnavailable
    | InsufficientStock
    | CartNotFound
    | ItemNotFound
    | ServerError

  /** What a handler returns to its caller about the cart. */
  datatype CartView = CartView(items: seq<CartItem>, totalItems: int, totalPrice: int)

  /** The store after the call, and the view or error returned. */
  datatype Response = Response(store: Store, result: Result<CartView, Error>)

  function ViewOf(c: Cart): CartView {
    CartView(c.items, c.totalItems, c.totalPrice)
  }

  /** A product the catalog holds and has not deactivated. */
  predicate Active(catalog: Catalog, pid: ProductId) {
    pid in catalog && catalog[pid].isActive
  }

  /** The read filter: a line is shown when its product still exists and is active. */
  function Shown(catalog: Catalog): CartItem -> bool {
    (it: CartItem) => Active(catalog, it.productId)
  }

  /** Every stored cart belongs to its key's user and is saved with one line per product. */
  predicate WellFormed(store: Store) {
    forall u :: u in store ==>
      && store[u].userId == u
      && Saved(store[u])
      && UniqueProducts(store[u].items)
  }

  /** Every product satisfies its schema. */
  predicate CatalogValid(catalog: Catalog) {
    forall pid :: pid in catalog ==> Valid(catalog[pid])
  }

  /** The units of `pid` the user's cart holds already (0 when none). */
  function QuantityInCart(store: Store, user: UserId, pid: ProductId): int {
    if user !in store then 0
    else
      match FindIndex(store[user].items, pid)
      case Some(i) => store[user].items[i].quantity
      case None => 0
  }

  /** The cart `addToCart` works on: the stored one as it is, or a new one for the user. */
  function CartOrNew(store: Store, user: UserId): (c: Cart)
    ensures user in store ==> c == store[user]
    ensures user !in store ==> c == NewCart(user)
  {
    if user in store then store[user] else NewCart(user)
  }

  /** Save `c` as the user's cart and return it, or fail without writing. */
  function Commit(store: Store, user: UserId, c: Cart): (r: Response)
    ensures r.result.Err? ==> r.store == store && r.result.error == ServerError
    ensures r.result.Ok? <==> AllValid(c.items)
    ensures r.result.Ok? ==> r.store == store[user := Save(c).value]
    ensures r.result.Ok? ==> r.result.value == ViewOf(r.store[user])
  {
    match Save(c)
    case Err(_) => Response(store, Err(ServerError))
    case Ok(saved) => Response(store[user := saved], Ok(ViewOf(saved)))
  }

  /**
   * `getCart`: never fails. A user without a cart sees an empty view; otherwise
   * the lines whose product is active are shown, with the stored totals.
   */
  function GetCart(store: Store, catalog: Catalog, user: UserId): (v: CartView)
    ensures user !in store ==> v == CartView([], 0, 0)
    ensures user in store ==> v.totalItems == store[user].totalItems
    ensures user in store ==> v.totalPrice == store[user].totalPrice
    ensures user in store ==> |v.items| <= |store[user].items|
  {
    if user !in store then CartView([], 0, 0)
    else
      var c := store[user];
      CartView(Filter(c.items, Shown(catalog)), c.totalItems, c.totalPrice)
  }

  /**
   * `addToCart`: the product must exist and be active and hold `quantity`
   * units; the user's cart is created if missing; an existing line may grow
   * only while the combined quantity stays within stock, keeping its price
   * snapshot; a new line is appended at the current price.
   */
  function AddToCart(store: Store, catalog: Catalog, user: UserId, pid: ProductId, quantity: int): (r: Response)
    ensures r.result.Err? ==> r.store == store
    ensures r.result == Err(ProductUnavailable) <==> !Active(catalog, pid)
    ensures Active(catalog, pid) && catalog[pid].stock < quantity ==> r.result == Err(InsufficientStock)
    ensures r.result.Ok? ==> user in r.store && r.result.value == ViewOf(r.store[user])
    ensures r.result.Ok? ==> forall u :: u != user ==> (u in r.store <==> u in store)
    ensures r.result.Ok? ==> forall u :: u != user && u in store ==> r.store[u] == store[u]
  {
    if !Active(catalog, pid) then Response(store, Err(ProductUnavailable))
    else
      var product := catalog[pid];
      if product.stock < quantity then Response(store, Err(InsufficientStock))
      else
        var cart := CartOrNew(store, user);
        match FindIndex(cart.items, pid)
        case Some(i) =>
          if cart.items[i].quantity + quantity > product.stock then
            Response(store, Err(InsufficientStock))
          else
            Commit(store, user, cart.(items := Merge(cart.items, pid, quantity, product.price)))
        case None =>
          Commit(store, user, cart.(items := Merge(cart.items, pid, quantity, product.price)))
  }

  /**
   * `updateCartItem`: checks, in order, that the cart exists, that it has a
   * line for `pid`, that the product is active, and that `quantity` is within
   * stock; then sets that line's quantity to `quantity` and its price to the
   * current price.
   */
  function UpdateCartItem(store: Store, catalog: Catalog, user: UserId, pid: ProductId, quantity: int): (r: Response)
    ensures r.result.Err? ==> r.store == store
    ensures r.result == Err(CartNotFound) <==> user !in store
    ensures user in store ==>
      (r.result == Err(ItemNotFound) <==> !Contains(store[user].items, pid))
    ensures user in store && Contains(store[user].items, pid) ==>
      (r.result == Err(ProductUnavailable) <==> !Active(catalog, pid))
    ensures user in store && Contains(store[user].items, pid) && Active(catalog, pid) ==>
      (r.result == Err(InsufficientStock) <==> quantity > catalog[pid].stock)
    ensures r.result.Ok? ==> r.store.Keys == store.Keys && r.result.value == ViewOf(r.store[user])
    ensures r.result.Ok? ==> forall u :: u != user && u in store ==> r.store[u] == store[u]
  {
    if user !in store then Response(store, Err(CartNotFound))
    else
      var cart := store[user];
      match FindIndex(cart.items, pid)
      case None => Response(store, Err(ItemNotFound))
      case Some(i) =>
        if !Active(catalog, pid) then Response(store, Err(ProductUnavailable))
        else
          var product := catalog[pid];
          if quantity > product.stock then Response(store, Err(InsufficientStock))
          else
            var line := cart.items[i].(quantity := quantity, price := product.price);
            Commit(store, user, cart.(items := cart.items[i := line]))
  }

  /**
   * `removeFromCart`: the cart must exist and hold a line for `pid`; the first
   * such line is spliced out and the rest keep their order.
   */
  function RemoveFromCart(store: Store, user: UserId, pid: ProductId): (r: Response)
    ensures r.result.Err? ==> r.store == store
    ensures r.result == Err(CartNotFound) <==> user !in store
    ensures user in store ==>
      (r.result == Err(ItemNotFound) <==> !Contains(store[user].items, pid))
    ensures r.result.Ok? ==> r.store.Keys == store.Keys && r.result.value == ViewOf(r.store[user])
    ensures r.result.Ok? ==> |r.store[user].items| == |store[user].items| - 1
    ensures r.result.Ok? ==>
      var items := store[user].items;
      var i := FindIndex(items, pid).value;
      r.store[user].items == items[..i] + items[i + 1..]
    ensures r.result.Ok? ==> forall u :: u != user && u in store ==> r.store[u] == store[u]
  {
    if user !in store then Response(store, Err(CartNotFound))
    else
      var cart := store[user];
      match FindIndex(cart.items, pid)
      case None => Response(store, Err(ItemNotFound))
      case Some(i) => Commit(store, user, cart.(items := cart.items[..i] + cart.items[i + 1..]))
  }

  /** `clearCart`: the cart must exist; it keeps its owner and loses every line. */
  function ClearCart(store: Store, user: UserId): (r: Response)
    ensures r.result.Err? <==> user !in store
    ensures r.result.Err? ==> r.store == store && r.result.error == CartNotFound
    ensures r.result.Ok? ==> r.store == store[user := Cart(store[user].userId, [], 0, 0)]
    ensures r.result.Ok? ==> r.result.value == CartView([], 0, 0)
  {
    if user !in store then Response(store, Err(CartNotFound))
    else Commit(store, user, store[user].(items := []))
  }
}
