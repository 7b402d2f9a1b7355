/**
 * Sequences of cart line items and the three list operations the cart code
 * is built from: locating the first item for a product, summing a weight
 * over the items (the `reduce` behind the totals), and filtering.
 */
module CartItems {
  import opened Wrappers
  import opened ProductModel

  /** One line of a cart: the product, how many, and the unit price snapshot. */
  datatype CartItem = CartItem(productId: ProductId, quantity: int, price: int)

  /** The schema constraints on a line item. */
  predicate ValidItem(it: CartItem) {
    it.quantity >= 1 && it.price >= 0
  }

  predicate AllValid(items: seq<CartItem>) {
    forall i :: 0 <= i < |items| ==> ValidItem(items[i])
  }

  /** No product occupies two lines. */
  predicate UniqueProducts(items: seq<CartItem>) {
    forall i, j :: 0 <= i < j < |items| ==> items[i].productId != items[j].productId
  }

  predicate Contains(items: seq<CartItem>, pid: ProductId) {
    exists i :: 0 <= i < |items| && items[i].productId == pid
  }

  /** The index of the first item for `pid`, as `findIndex`/`find` locate it. */
  function FindIndex(items: seq<CartItem>, pid: ProductId): (r: Option<nat>)
    ensures r.None? <==> !Contains(items, pid)
    ensures r.Some? ==> r.value < |items| && items[r.value].productId == pid
    ensures r.Some? ==> forall k :: 0 <= k < r.value ==> items[k].productId != pid
  {
    if |items| == 0 then None
    else if items[0].productId == pid then Some(0)
    else
      match FindIndex(items[1..], pid)
      case None => None
      case Some(i) => Some(i + 1)
  }

  /** With unique products the first match is the only match. */
  lemma FindIndexUnique(items: seq<CartItem>, pid: ProductId, i: nat)
    requires UniqueProducts(items)
    requires i < |items| && items[i].productId == pid
    ensures FindIndex(items, pid) == Some(i)
  {
  }

  function Quantity(it: CartItem): int { it.quantity }

  function LineTotal(it: CartItem): int { it.price * it.quantity }

  /** Left fold of `weight` over the items, starting from 0. */
  function Sum(items: seq<CartItem>, weight: CartItem -> int): int {
    if |items| == 0 then 0
    else Sum(items[..|items| - 1], weight) + weight(items[|items| - 1])
  }

  lemma {:induction false} SumAppend(a: seq<CartItem>, b: seq<CartItem>, weight: CartItem -> int)
    ensures Sum(a + b, weight) == Sum(a, weight) + Sum(b, weight)
    decreases |b|
  {
    if |b| == 0 {
      assert a + b == a;
    } else {
      var n := |b| - 1;
      assert (a + b)[..|a + b| - 1] == a + b[..n];
      SumAppend(a, b[..n], weight);
    }
  }

  lemma SumSingleton(x: CartItem, weight: CartItem -> int)
    ensures Sum([x], weight) == weight(x)
  {
    assert [x][..0] == [];
  }

  /** Replacing one item changes the sum by exactly the difference of weights. */
  lemma {:induction false} SumUpdate(items: seq<CartItem>, i: nat, x: CartItem, weight: CartItem -> int)
    requires i < |items|
    ensures Sum(items[i := x], weight) == Sum(items, weight) - weight(items[i]) + weight(x)
  {
    var pre, post := items[..i], items[i + 1..];
    assert items == pre + [items[i]] + post;
    assert items[i := x] == pre + [x] + post;
    SumAppend(pre + [items[i]], post, weight);
    SumAppend(pre, [items[i]], weight);
    SumAppend(pre + [x], post, weight);
    SumAppend(pre, [x], weight);
    SumSingleton(items[i], weight);
    SumSingleton(x, weight);
  }

  /** Removing one item lowers the sum by exactly its weight. */
  lemma {:induction false} SumRemove(items: seq<CartItem>, i: nat, weight: CartItem -> int)
    requires i < |items|
    ensures Sum(items[..i] + items[i + 1..], weight) == Sum(items, weight) - weight(items[i])
  {
    var pre, tail, post := items[..i], items[i..], items[i + 1..];
    assert items == pre + tail;
    assert tail == [items[i]] + post;
    SumAppend(pre, tail, weight);
    SumAppend([items[i]], post, weight);
    SumSingleton(items[i], weight);
    SumAppend(pre, post, weight);
  }

  /** Every valid line holds at least one unit at a non-negative price. */
  lemma {:induction false} ValidTotalsBounds(items: seq<CartItem>)
    requires AllValid(items)
    ensures Sum(items, Quantity) >= |items|
    ensures Sum(items, LineTotal) >= 0
    decreases |items|
  {
    if |items| > 0 {
      var n := |items| - 1;
      ValidTotalsBounds(items[..n]);
      assert ValidItem(items[n]);
    }
  }

  /** The items `keep` accepts, in their original order. */
  function Filter(items: seq<CartItem>, keep: CartItem -> bool): (r: seq<CartItem>)
    ensures |r| <= |items|
  {
    if |items| == 0 then []
    else (if keep(items[0]) then [items[0]] else []) + Filter(items[1..], keep)
  }

  /** An item survives the filter exactly when it was there and is kept. */
  lemma {:induction false} FilterMembership(items: seq<CartItem>, keep: CartItem -> bool, x: CartItem)
    ensures x in Filter(items, keep) <==> x in items && keep(x)
    decreases |items|
  {
    if |items| > 0 {
      FilterMembership(items[1..], keep, x);
      assert items == [items[0]] + items[1..];
    }
  }

  /** Filtering distributes over concatenation: relative order is kept. */
  lemma {:induction false} FilterAppend(a: seq<CartItem>, b: seq<CartItem>, keep: CartItem -> bool)
    ensures Filter(a + b, keep) == Filter(a, keep) + Filter(b, keep)
    decreases |a|
  {
    if |a| > 0 {
      assert (a + b)[1..] == a[1..] + b;
      FilterAppend(a[1..], b, keep);
    } else {
      assert a + b == b;
    }
  }

  /** A filter that rejects nothing is the identity. */
  lemma {:induction false} FilterKeepAll(items: seq<CartItem>, keep: CartItem -> bool)
    requires forall x :: x in items ==> keep(x)
    ensures Filter(items, keep) == items
    decreases |items|
  {
    if |items| > 0 {
      assert items[0] in items;
      FilterKeepAll(items[1..], keep);
    }
  }

  /** Filtering out exactly one line, with all lines around it kept, splices that line out. */
  lemma {:induction false} FilterDropsOne(pre: seq<CartItem>, x: CartItem, post: seq<CartItem>, keep: CartItem -> bool)
    requires forall y :: y in pre ==> keep(y)
    requires forall y :: y in post ==> keep(y)
    requires !keep(x)
    ensures Filter(pre + [x] + post, keep) == pre + post
  {
    var tail := [x] + post;
    assert pre + [x] + post == pre + tail;
    FilterAppend(pre, tail, keep);
    assert tail[1..] == post;
    assert Filter(tail, keep) == Filter(post, keep);
    FilterKeepAll(pre, keep);
    FilterKeepAll(post, keep);
  }

  /** The filter that drops the lines for `pid`. */
  function NotFor(pid: ProductId): CartItem -> bool {
    (x: CartItem) => x.productId != pid
  }

  /** Under unique products, dropping every line for `pid` is splicing out its one line. */
  lemma {:induction false} FilterOutUnique(items: seq<CartItem>, i: nat)
    requires UniqueProducts(items)
    requires i < |items|
    ensures Filter(items, NotFor(items[i].productId)) == items[..i] + items[i + 1..]
  {
    var keep := NotFor(items[i].productId);
    var pre, post := items[..i], items[i + 1..];
    forall y | y in pre
      ensures keep(y)
    {
      var k :| 0 <= k < |pre| && pre[k] == y;
      assert items[k] == y;
    }
    forall y | y in post
      ensures keep(y)
    {
      var k :| 0 <= k < |post| && post[k] == y;
      assert items[i + 1 + k] == y;
    }
    assert items == pre + [items[i]] + post;
    FilterDropsOne(pre, items[i], post, keep);
  }

  /**
   * The add-or-merge step on a list of lines: an existing line for `pid` grows
   * by `quantity` and keeps its place and price snapshot; otherwise a new
   * line is appended.
   */
  function Merge(items: seq<CartItem>, pid: ProductId, quantity: int, price: int): (r: seq<CartItem>)
    ensures Contains(items, pid) ==> |r| == |items|
    ensures !Contains(items, pid) ==> r == items + [CartItem(pid, quantity, price)]
  {
    match FindIndex(items, pid)
    case Some(i) => items[i := items[i].(quantity := items[i].quantity + quantity)]
    case None => items + [CartItem(pid, quantity, price)]
  }

  /**
   * Merging into a cart that has a line for `pid` changes the first such
   * line's quantity and nothing else.
   */
  lemma MergeExisting(items: seq<CartItem>, pid: ProductId, quantity: int, price: int)
    requires Contains(items, pid)
    ensures var r := Merge(items, pid, quantity, price);
      var i := FindIndex(items, pid).value;
      && |r| == |items|
      && r[i].productId == pid
      && r[i].quantity == items[i].quantity + quantity
      && r[i].price == items[i].price
      && forall k :: 0 <= k < |items| && k != i ==> r[k] == items[k]
  {
  }

  /** Merging keeps one line per product. */
  lemma MergeUnique(items: seq<CartItem>, pid: ProductId, quantity: int, price: int)
    requires UniqueProducts(items)
    ensures UniqueProducts(Merge(items, pid, quantity, price))
  {
  }

  /** Merging a positive quantity at a non-negative price keeps every line valid. */
  lemma MergeValid(items: seq<CartItem>, pid: ProductId, quantity: int, price: int)
    requires AllValid(items)
    requires quantity >= 1 && price >= 0
    ensures AllValid(Merge(items, pid, quantity, price))
  {
  }

  /** Merging adds exactly `quantity` units to the cart. */
  lemma {:induction false} MergeQuantity(items: seq<CartItem>, pid: ProductId, quantity: int, price: int)
    ensures Sum(Merge(items, pid, quantity, price), Quantity) == Sum(items, Quantity) + quantity
  {
    var r := Merge(items, pid, quantity, price);
    match FindIndex(items, pid)
    case Some(i) =>
      var line := items[i].(quantity := items[i].quantity + quantity);
      assert r == items[i := line];
      SumUpdate(items, i, line, Quantity);
    case None =>
      var line := CartItem(pid, quantity, price);
      assert r == items + [line];
      SumAppend(items, [line], Quantity);
      SumSingleton(line, Quantity);
  }

  /**
   * Merging raises the price total by `quantity` units at the line's price:
   * the existing line's snapshot when there is one, else the given price.
   */
  lemma {:induction false} MergeLineTotal(items: seq<CartItem>, pid: ProductId, quantity: int, price: int)
    ensures var unit := match FindIndex(items, pid)
                        case Some(i) => items[i].price
                        case None => price;
      Sum(Merge(items, pid, quantity, price), LineTotal) == Sum(items, LineTotal) + quantity * unit
  {
    var r := Merge(items, pid, quantity, price);
    match FindIndex(items, pid)
    case Some(i) =>
      var line := items[i].(quantity := items[i].quantity + quantity);
      assert r == items[i := line];
      SumUpdate(items, i, line, LineTotal);
      assert LineTotal(line) == LineTotal(items[i]) + quantity * items[i].price;
    case None =>
      var line := CartItem(pid, quantity, price);
      assert r == items + [line];
      SumAppend(items, [line], LineTotal);
      SumSingleton(line, LineTotal);
  }
}
