/** The cart button and sidebar of components/cart.tsx: the gestures it turns
    into reducer actions, its count badge, and the checkout handoff that stores
    a frozen copy of the lines in `sessionStorage` under 'checkoutItems'. */
module CartSidebar {
  import opened Common
  import opened CartActions
  import opened BrowserStorage

  /** One dispatched action and the toast shown with it, if any. */
  datatype Dispatch = Dispatch(action: Action, toast: Option<string>)

  function ActionId(a: Action): Option<string> {
    match a
    case RemoveItem(id) => Some(id)
    case UpdateQuantity(id, _) => Some(id)
    case AddItem(item) => Some(item.id)
    case ClearCart => None
  }

  /** `updateQuantity(id, quantity)`: exactly one action about `id`; a removal
      (with its toast) when the quantity is not positive, otherwise an update
      that carries the quantity unchanged. */
  function UpdateQuantityGesture(id: string, quantity: int): (d: Dispatch)
    ensures ActionId(d.action) == Some(id)
    ensures d.action.RemoveItem? <==> quantity <= 0
    ensures d.action.RemoveItem? || (d.action.UpdateQuantity? && d.action.quantity == quantity >= 1)
    ensures d.toast.Some? <==> d.action.RemoveItem?
  {
    if quantity <= 0 then Dispatch(RemoveItem(id), Some("Item removed from cart"))
    else Dispatch(UpdateQuantity(id, quantity), None)
  }

  /** `removeItem(id)`: always a removal of `id`, with its toast. */
  function RemoveItemGesture(id: string): (d: Dispatch)
    ensures d.action == RemoveItem(id) && d.toast == Some("Item removed from cart")
  {
    Dispatch(RemoveItem(id), Some("Item removed from cart"))
  }

  /** The minus button of a line. */
  function MinusPressed(item: LineItem): Dispatch {
    UpdateQuantityGesture(item.id, item.quantity - 1)
  }

  /** The plus button of a line. */
  function PlusPressed(item: LineItem): Dispatch {
    UpdateQuantityGesture(item.id, item.quantity + 1)
  }

  /** The stepper moves by one in each direction; pressing minus on a single
      unit removes the line, exactly as the remove button does. */
  lemma StepperSteps(item: LineItem)
    ensures item.quantity >= 2 ==> MinusPressed(item).action == UpdateQuantity(item.id, item.quantity - 1)
    ensures item.quantity >= 0 ==> PlusPressed(item).action == UpdateQuantity(item.id, item.quantity + 1)
    ensures item.quantity == 1 ==> MinusPressed(item) == RemoveItemGesture(item.id)
  {
  }

  /** The count badge: present exactly when the count is positive, showing it. */
  function CountBadge(itemCount: int): (badge: Option<int>)
    ensures badge.Some? <==> itemCount > 0
    ensures badge.Some? ==> badge.value == itemCount
  {
    if itemCount > 0 then Some(itemCount) else None
  }

  class CartButton {
    var isOpen: bool

    constructor ()
      ensures !isOpen
    {
      isOpen := false;
    }

    method Open()
      modifies this
      ensures isOpen
    {
      isOpen := true;
    }

    method Close()
      modifies this
      ensures !isOpen
    {
      isOpen := false;
    }

    /** `handleCheckout` over the store's current lines. An empty cart only
        shows the error toast. Otherwise the sidebar closes, the lines are
        stored as the checkout snapshot, and the page moves to /checkout. */
    method HandleCheckout(items: seq<LineItem>, session: KeyValueStore<LineItem>)
      returns (navigateTo: Option<string>, toast: Option<string>)
      modifies this, session
      ensures items == [] ==>
        navigateTo == None && toast == Some("Your cart is empty!") &&
        isOpen == old(isOpen) && session.entries == old(session.entries)
      ensures items != [] ==>
        navigateTo == Some("/checkout") && toast == None && !isOpen &&
        session.entries == old(session.entries)[CheckoutItemsKey := Serialized(items)]
    {
      if items == [] {
        return None, Some("Your cart is empty!");
      }
      isOpen := false;
      session.SetItem(CheckoutItemsKey, items);
      navigateTo, toast := Some("/checkout"), None;
    }
  }
}
