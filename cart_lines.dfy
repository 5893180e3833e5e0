/** The cart store's line items and the four list transforms behind
    `addToCart`, `removeFromCart`, `updateQuantity` and `clearCart`, with the
    derived `totalItems` and `subtotal` (contexts/CartContext.tsx). Each
    transform is a function from the previous list to the next one, as the
    source's `setItems(prev => ...)` updaters are. */
module CartLines {
  import opened Common

  /** One line of the cart. Prices and quantities are whole numbers. */
  datatype CartItem = CartItem(
    id: string,
    imageUrl: string,
    prompt: string,
    style: string,
    price: int,
    quantity: int,
    createdAt: string)

  /** What `addToCart` receives: a cart item without its quantity. */
  datatype NewItem = NewItem(
    id: string,
    imageUrl: string,
    prompt: string,
    style: string,
    price: int,
    createdAt: string)

  /** `{ ...item, quantity }`. */
  function WithQuantity(item: NewItem, quantity: int): (r: CartItem)
    ensures r.id == item.id && r.imageUrl == item.imageUrl && r.prompt == item.prompt
    ensures r.style == item.style && r.price == item.price && r.createdAt == item.createdAt
    ensures r.quantity == quantity
  {
    CartItem(item.id, item.imageUrl, item.prompt, item.style, item.price, quantity, item.createdAt)
  }

  /** `items.find(i => i.id === id)` finds something. */
  predicate HasId(items: seq<CartItem>, id: string) {
    exists i :: 0 <= i < |items| && items[i].id == id
  }

  /** No two lines share an id. */
  ghost predicate DistinctIds(items: seq<CartItem>) {
    forall i, j :: 0 <= i < j < |items| ==> items[i].id != items[j].id
  }

  /** Every line has a quantity of at least one. */
  ghost predicate QuantitiesPositive(items: seq<CartItem>) {
    forall i :: 0 <= i < |items| ==> items[i].quantity >= 1
  }

  /** The cart invariant that every operation of the store keeps. */
  ghost predicate WellFormed(items: seq<CartItem>) {
    DistinctIds(items) && QuantitiesPositive(items)
  }

  /** `items.map(i => i.id === id ? { ...i, quantity: q(i.quantity) } : i)`. */
  function MapQuantity(items: seq<CartItem>, id: string, q: int -> int): (r: seq<CartItem>)
    ensures |r| == |items|
    ensures forall i :: 0 <= i < |r| ==>
      r[i] == if items[i].id == id then items[i].(quantity := q(items[i].quantity)) else items[i]
  {
    if items == [] then []
    else
      var head := if items[0].id == id then items[0].(quantity := q(items[0].quantity)) else items[0];
      [head] + MapQuantity(items[1..], id, q)
  }

  function Increment(n: int): int { n + 1 }

  /** `addToCart`: a line with the same id gains one unit (its other fields
      are kept, not replaced by the new item's); otherwise the item is appended
      with quantity 1. */
  function AddToCart(items: seq<CartItem>, item: NewItem): (r: seq<CartItem>)
    ensures HasId(r, item.id)
    ensures !HasId(items, item.id) ==> r == items + [WithQuantity(item, 1)]
    ensures HasId(items, item.id) ==> |r| == |items|
    ensures HasId(items, item.id) ==> forall i :: 0 <= i < |items| ==>
      (items[i].id == item.id ==> r[i] == items[i].(quantity := items[i].quantity + 1)) &&
      (items[i].id != item.id ==> r[i] == items[i])
  {
    if HasId(items, item.id) then
      var r := MapQuantity(items, item.id, Increment);
      var k :| 0 <= k < |items| && items[k].id == item.id;
      assert r[k].id == item.id;
      r
    else
      var r := items + [WithQuantity(item, 1)];
      assert r[|items|].id == item.id;
      r
  }

  /** `items.filter(i => i.id !== id)`. */
  function RemoveFromCart(items: seq<CartItem>, id: string): (r: seq<CartItem>)
    ensures forall x :: x in r <==> x in items && x.id != id
    ensures !HasId(r, id)
    ensures !HasId(items, id) ==> r == items
    ensures HasId(items, id) ==> |r| < |items|
  {
    var r := Filter(items, (x: CartItem) => x.id != id);
    if !HasId(items, id) then
      FilterAll(items, (x: CartItem) => x.id != id);
      r
    else
      var k :| 0 <= k < |items| && items[k].id == id;
      FilterDropsOne(items, id, k);
      r
  }

  lemma {:induction false} FilterDropsOne(items: seq<CartItem>, id: string, k: int)
    requires 0 <= k < |items| && items[k].id == id
    ensures |Filter(items, (x: CartItem) => x.id != id)| < |items|
  {
    var p := (x: CartItem) => x.id != id;
    if k == 0 {
      assert Filter(items, p) == Filter(items[1..], p);
    } else {
      FilterDropsOne(items[1..], id, k - 1);
    }
  }

  /** `updateQuantity`: below one it is `removeFromCart`; otherwise the line
      with that id gets exactly that quantity. */
  function UpdateQuantity(items: seq<CartItem>, id: string, quantity: int): (r: seq<CartItem>)
    ensures quantity < 1 ==> r == RemoveFromCart(items, id)
    ensures quantity >= 1 ==> |r| == |items| && forall i :: 0 <= i < |items| ==>
      (items[i].id == id ==> r[i] == items[i].(quantity := quantity)) &&
      (items[i].id != id ==> r[i] == items[i])
    ensures !HasId(items, id) ==> r == items
  {
    if quantity < 1 then RemoveFromCart(items, id)
    else
      var r := MapQuantity(items, id, _ => quantity);
      assert !HasId(items, id) ==> r == items;
      r
  }

  /** `clearCart`. */
  function ClearCart(): (r: seq<CartItem>)
    ensures |r| == 0
  {
    []
  }

  function Quantity(item: CartItem): int { item.quantity }

  function LineTotal(item: CartItem): int { item.price * item.quantity }

  /** `items.reduce((sum, item) => sum + item.quantity, 0)`. */
  function TotalItems(items: seq<CartItem>): (r: int)
    ensures QuantitiesPositive(items) ==> r >= |items|
    ensures items == [] ==> r == 0
  {
    SumAtLeastCount(items, Quantity);
    Sum(items, Quantity)
  }

  /** `items.reduce((sum, item) => sum + item.price * item.quantity, 0)`. */
  function Subtotal(items: seq<CartItem>): (r: int)
    ensures (forall i :: 0 <= i < |items| ==> items[i].price >= 0 && items[i].quantity >= 0) ==> r >= 0
    ensures items == [] ==> r == 0
  {
    if forall i :: 0 <= i < |items| ==> items[i].price >= 0 && items[i].quantity >= 0 then
      SumNonNegative(items, LineTotal);
      Sum(items, LineTotal)
    else
      Sum(items, LineTotal)
  }

  // Invariant preservation: distinct ids and quantities of at least one.

  lemma AddToCartPreservesWellFormed(items: seq<CartItem>, item: NewItem)
    requires WellFormed(items)
    ensures WellFormed(AddToCart(items, item))
  {
    var r := AddToCart(items, item);
    if !HasId(items, item.id) {
      forall i, j | 0 <= i < j < |r| ensures r[i].id != r[j].id {
        if j == |items| {
          assert r[i] == items[i];
        }
      }
    }
  }

  lemma RemoveFromCartPreservesWellFormed(items: seq<CartItem>, id: string)
    requires WellFormed(items)
    ensures WellFormed(RemoveFromCart(items, id))
  {
    var r := RemoveFromCart(items, id);
    forall i | 0 <= i < |r| ensures r[i].quantity >= 1 {
      assert r[i] in items;
    }
    RemoveFromCartKeepsDistinct(items, id);
  }

  /** Removal keeps ids distinct: the survivors are lines of the original list, in order. */
  lemma {:induction false} RemoveFromCartKeepsDistinct(items: seq<CartItem>, id: string)
    requires DistinctIds(items)
    ensures DistinctIds(RemoveFromCart(items, id))
  {
    if items != [] {
      DistinctTail(items);
      RemoveFromCartKeepsDistinct(items[1..], id);
      RemoveFromCartCons(items, id);
      if items[0].id != id {
        var rest := RemoveFromCart(items[1..], id);
        forall j | 0 <= j < |rest| ensures rest[j].id != items[0].id {
          assert rest[j] in items[1..];
        }
        DistinctCons(items[0], rest);
      }
    }
  }

  /** One step of the filter: the head survives exactly when its id differs. */
  lemma RemoveFromCartCons(items: seq<CartItem>, id: string)
    requires items != []
    ensures RemoveFromCart(items, id) ==
      (if items[0].id != id then [items[0]] else []) + RemoveFromCart(items[1..], id)
  {
  }

  lemma DistinctTail(items: seq<CartItem>)
    requires items != [] && DistinctIds(items)
    ensures DistinctIds(items[1..])
    ensures forall j :: 0 <= j < |items[1..]| ==> items[1..][j].id != items[0].id
  {
    forall i, j | 0 <= i < j < |items[1..]| ensures items[1..][i].id != items[1..][j].id {
      assert items[1..][i] == items[i + 1] && items[1..][j] == items[j + 1];
    }
  }

  lemma DistinctCons(x: CartItem, rest: seq<CartItem>)
    requires DistinctIds(rest)
    requires forall j :: 0 <= j < |rest| ==> rest[j].id != x.id
    ensures DistinctIds([x] + rest)
  {
    var r := [x] + rest;
    forall i, j | 0 <= i < j < |r| ensures r[i].id != r[j].id {
      assert r[j] == rest[j - 1];
      if i > 0 {
        assert r[i] == rest[i - 1];
      }
    }
  }

  lemma UpdateQuantityPreservesWellFormed(items: seq<CartItem>, id: string, quantity: int)
    requires WellFormed(items)
    ensures WellFormed(UpdateQuantity(items, id, quantity))
  {
    if quantity < 1 {
      RemoveFromCartPreservesWellFormed(items, id);
    }
  }

  lemma ClearCartIsWellFormedAndEmpty()
    ensures WellFormed(ClearCart())
    ensures TotalItems(ClearCart()) == 0 && Subtotal(ClearCart()) == 0
  {
  }

  // Totals.

  /** With distinct ids, adding raises the item count by exactly one and the
      subtotal by exactly the price of the line that gained the unit. */
  lemma {:induction false} AddToCartTotals(items: seq<CartItem>, item: NewItem)
    requires DistinctIds(items)
    ensures TotalItems(AddToCart(items, item)) == TotalItems(items) + 1
    ensures !HasId(items, item.id) ==> Subtotal(AddToCart(items, item)) == Subtotal(items) + item.price
    ensures forall k :: 0 <= k < |items| && items[k].id == item.id ==>
      Subtotal(AddToCart(items, item)) == Subtotal(items) + items[k].price
  {
    if !HasId(items, item.id) {
      SumAppend(items, [WithQuantity(item, 1)], Quantity);
      SumAppend(items, [WithQuantity(item, 1)], LineTotal);
    } else {
      var k :| 0 <= k < |items| && items[k].id == item.id;
      IncrementItemCount(items, item.id, k);
      IncrementSubtotal(items, item.id, k);
    }
  }

  /** Raising the one line with the id by a unit raises the item count by one. */
  lemma {:induction false} IncrementItemCount(items: seq<CartItem>, id: string, k: int)
    requires DistinctIds(items)
    requires 0 <= k < |items| && items[k].id == id
    ensures Sum(MapQuantity(items, id, Increment), Quantity) == Sum(items, Quantity) + 1
  {
    var r := MapQuantity(items, id, Increment);
    assert r[1..] == MapQuantity(items[1..], id, Increment);
    if k == 0 {
      DistinctTail(items);
      UnmatchedUnchanged(items[1..], id, Increment);
    } else {
      DistinctTail(items);
      IncrementItemCount(items[1..], id, k - 1);
    }
  }

  /** Raising the one line with the id by a unit raises the subtotal by its price. */
  lemma {:induction false} IncrementSubtotal(items: seq<CartItem>, id: string, k: int)
    requires DistinctIds(items)
    requires 0 <= k < |items| && items[k].id == id
    ensures Sum(MapQuantity(items, id, Increment), LineTotal) == Sum(items, LineTotal) + items[k].price
  {
    var r := MapQuantity(items, id, Increment);
    assert r[1..] == MapQuantity(items[1..], id, Increment);
    if k == 0 {
      DistinctTail(items);
      UnmatchedUnchanged(items[1..], id, Increment);
    } else {
      DistinctTail(items);
      IncrementSubtotal(items[1..], id, k - 1);
    }
  }

  lemma UnmatchedUnchanged(items: seq<CartItem>, id: string, q: int -> int)
    requires !HasId(items, id)
    ensures MapQuantity(items, id, q) == items
  {
  }

  /** Starting empty, adding the same 299-priced item twice gives two units
      and a subtotal of 598. */
  lemma AddTwiceScenario(item: NewItem)
    requires item.price == 299
    ensures var once := AddToCart(ClearCart(), item);
            var twice := AddToCart(once, item);
            TotalItems(twice) == 2 && Subtotal(twice) == 598 && |twice| == 1
  {
    var once := AddToCart([], item);
    assert once == [WithQuantity(item, 1)];
    assert HasId(once, item.id);
    var twice := AddToCart(once, item);
    assert twice == [WithQuantity(item, 2)];
    SumSingleton(twice[0], Quantity);
    SumSingleton(twice[0], LineTotal);
  }

  /** Adding a new id twice is adding it once and then setting its quantity to 2. */
  lemma AddTwiceIsUpdateToTwo(items: seq<CartItem>, item: NewItem)
    requires !HasId(items, item.id)
    ensures AddToCart(AddToCart(items, item), item) ==
            UpdateQuantity(AddToCart(items, item), item.id, 2)
  {
    var once := AddToCart(items, item);
    var a := AddToCart(once, item);
    var b := UpdateQuantity(once, item.id, 2);
    assert |a| == |b|;
    forall i | 0 <= i < |a| ensures a[i] == b[i] {
      if i < |items| {
        assert once[i] == items[i];
      }
    }
  }

  /** Lines A (2 at 100) and B (1 at 50): setting A to zero leaves only B and a subtotal of 50. */
  lemma UpdateToZeroScenario(a: CartItem, b: CartItem)
    requires a.id != b.id
    requires a.quantity == 2 && a.price == 100 && b.quantity == 1 && b.price == 50
    ensures UpdateQuantity([a, b], a.id, 0) == [b]
    ensures Subtotal(UpdateQuantity([a, b], a.id, 0)) == 50
  {
    var r := UpdateQuantity([a, b], a.id, 0);
    assert r == Filter([a, b], (x: CartItem) => x.id != a.id);
    assert [a, b][1..] == [b];
    assert Filter([b], (x: CartItem) => x.id != a.id) == [b] + Filter([], (x: CartItem) => x.id != a.id);
    SumSingleton(b, LineTotal);
  }

  // Order.

  /** Removal keeps the surviving lines in their original order. */
  lemma RemoveFromCartKeepsOrder(items: seq<CartItem>, id: string)
    ensures IsSubsequence(RemoveFromCart(items, id), items)
  {
    FilterIsSubsequence(items, (x: CartItem) => x.id != id);
  }

  lemma RemoveFromCartAppend(a: seq<CartItem>, b: seq<CartItem>, id: string)
    ensures RemoveFromCart(a + b, id) == RemoveFromCart(a, id) + RemoveFromCart(b, id)
  {
    FilterAppend(a, b, (x: CartItem) => x.id != id);
  }
}
