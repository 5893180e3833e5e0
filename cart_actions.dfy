/** The shapes the cart views, the checkout page and the gallery exchange with
    the reducer store they import from `lib/cart-context`: its line items and
    the actions dispatched to it. The reducer itself is not part of this
    model, so nothing here says what an action does to the store. */
module CartActions {
  import opened Common
  import PhoneModelSelector

  type PhoneModel = PhoneModelSelector.PhoneModel

  /** The `sessionStorage` key of the frozen snapshot handed to checkout. */
  const CheckoutItemsKey: string := "checkoutItems"

  /** A line of the reducer store, as the views read it. */
  datatype LineItem = LineItem(
    id: string,
    name: string,
    price: int,
    quantity: int,
    image: string,
    phoneModel: Option<PhoneModel>,
    caseType: Option<string>,
    style: Option<string>)

  /** The `ADD_ITEM` payload: an item without a quantity. */
  datatype ItemPayload = ItemPayload(
    id: string,
    name: string,
    price: int,
    image: string,
    phoneModel: PhoneModel)

  datatype Action =
    | AddItem(item: ItemPayload)
    | RemoveItem(id: string)
    | UpdateQuantity(id: string, quantity: int)
    | ClearCart

  function Quantity(item: LineItem): int { item.quantity }

  /** What each line shows: `price * quantity`. */
  function LineTotal(item: LineItem): int { item.price * item.quantity }

  /** `items.reduce((sum, item) => sum + item.quantity, 0)`. */
  function TotalItems(items: seq<LineItem>): (r: int)
    ensures (forall i :: 0 <= i < |items| ==> items[i].quantity >= 1) ==> r >= |items|
    ensures items == [] ==> r == 0
  {
    SumAtLeastCount(items, Quantity);
    Sum(items, Quantity)
  }

  /** `items.reduce((sum, item) => sum + item.price * item.quantity, 0)`. */
  function Subtotal(items: seq<LineItem>): (r: int)
    ensures (forall i :: 0 <= i < |items| ==> items[i].price >= 0 && items[i].quantity >= 0) ==> r >= 0
    ensures items == [] ==> r == 0
  {
    if forall i :: 0 <= i < |items| ==> items[i].price >= 0 && items[i].quantity >= 0 then
      SumNonNegative(items, LineTotal);
      Sum(items, LineTotal)
    else
      Sum(items, LineTotal)
  }

  /** The subtotal is the sum of the amounts the lines display; it is 0 for
      no lines, and each appended line adds its own amount. */
  lemma SubtotalOfLines(items: seq<LineItem>, item: LineItem)
    ensures Subtotal([]) == 0 && TotalItems([]) == 0
    ensures Subtotal(items + [item]) == Subtotal(items) + LineTotal(item)
    ensures TotalItems(items + [item]) == TotalItems(items) + item.quantity
  {
    SumAppend(items, [item], LineTotal);
    SumAppend(items, [item], Quantity);
    SumSingleton(item, LineTotal);
    SumSingleton(item, Quantity);
  }

  /** With non-negative prices and quantities the subtotal is never negative. */
  lemma SubtotalNonNegative(items: seq<LineItem>)
    requires forall i :: 0 <= i < |items| ==> items[i].price >= 0 && items[i].quantity >= 0
    ensures Subtotal(items) >= 0 && TotalItems(items) >= 0
  {
    SumNonNegative(items, LineTotal);
    SumNonNegative(items, Quantity);
  }

  /** The amount each displayed line shows, in list order. */
  function LineAmounts(items: seq<LineItem>): (amounts: seq<int>)
    ensures |amounts| == |items|
    ensures forall i :: 0 <= i < |items| ==> amounts[i] == items[i].price * items[i].quantity
  {
    if items == [] then [] else [LineTotal(items[0])] + LineAmounts(items[1..])
  }

  function Amount(n: int): int { n }

  function SumOfAmounts(amounts: seq<int>): int {
    Sum(amounts, Amount)
  }

  /** The subtotal shown is the sum of the line amounts shown. */
  lemma {:induction false} SubtotalIsSumOfLineAmounts(items: seq<LineItem>)
    ensures Subtotal(items) == SumOfAmounts(LineAmounts(items))
  {
    if items != [] {
      SubtotalIsSumOfLineAmounts(items[1..]);
      assert LineAmounts(items)[1..] == LineAmounts(items[1..]);
    }
  }
}
