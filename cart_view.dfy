/** The full cart page component of components/cart/Cart.tsx. It keeps no
    state of its own: its handlers only choose the action to dispatch or the
    page to open, and what it renders is a function of the store's lines. */
module CartView {
  import opened CartActions

  /** `handleRemoveItem(id)`. */
  function HandleRemoveItem(id: string): (a: Action)
    ensures a == RemoveItem(id)
  {
    RemoveItem(id)
  }

  /** `handleUpdateQuantity(id, quantity)`: a removal below one (and nothing
      else), otherwise an update carrying the quantity unchanged. */
  function HandleUpdateQuantity(id: string, quantity: int): (a: Action)
    ensures a.RemoveItem? <==> quantity < 1
    ensures a.RemoveItem? ==> a == HandleRemoveItem(id)
    ensures a.UpdateQuantity? ==> a.id == id && a.quantity == quantity >= 1
    ensures a.RemoveItem? || a.UpdateQuantity?
  {
    if quantity < 1 then HandleRemoveItem(id) else UpdateQuantity(id, quantity)
  }

  /** "Clear All" dispatches CLEAR_CART, with no confirmation. */
  function HandleClearCart(): (a: Action)
    ensures a.ClearCart?
  {
    ClearCart
  }

  /** `handleCheckout` only opens the checkout page; it stores no snapshot. */
  function HandleCheckout(): (path: string)
    ensures path == "/checkout"
  {
    "/checkout"
  }

  /** The minus and plus buttons of a line. */
  function MinusPressed(item: LineItem): Action {
    HandleUpdateQuantity(item.id, item.quantity - 1)
  }

  function PlusPressed(item: LineItem): Action {
    HandleUpdateQuantity(item.id, item.quantity + 1)
  }

  lemma StepperSteps(item: LineItem)
    ensures item.quantity == 1 ==> MinusPressed(item) == RemoveItem(item.id)
    ensures item.quantity >= 2 ==> MinusPressed(item) == UpdateQuantity(item.id, item.quantity - 1)
    ensures item.quantity >= 0 ==> PlusPressed(item) == UpdateQuantity(item.id, item.quantity + 1)
  {
  }

  /** What the component renders. */
  datatype Page =
    | EmptyState(startCreating: string)
    | CartList(totalItems: int, subtotal: int, lineAmounts: seq<int>)

  /** An empty list renders the empty state, whose only button opens
      /generate; otherwise the header count, the per-line amounts and the
      subtotal, which is the sum of the amounts shown. */
  function Render(items: seq<LineItem>): (p: Page)
    ensures p.EmptyState? <==> items == []
    ensures p.EmptyState? ==> p.startCreating == "/generate"
    ensures p.CartList? ==>
      p.totalItems == TotalItems(items) && p.subtotal == Subtotal(items) &&
      p.lineAmounts == LineAmounts(items) && p.subtotal == SumOfAmounts(p.lineAmounts)
  {
    if items == [] then EmptyState("/generate")
    else
      SubtotalIsSumOfLineAmounts(items);
      CartList(TotalItems(items), Subtotal(items), LineAmounts(items))
  }
}
