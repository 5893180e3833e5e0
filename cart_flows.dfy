/** How the two cart components hand the cart to the checkout page, and how
    their quantity steppers compare. The sidebar of components/cart.tsx
    stores a snapshot under 'checkoutItems' before it navigates; the cart
    page of components/cart/Cart.tsx navigates without one, so the checkout
    page of app/checkout/page.tsx finds nothing and sends the visitor home. */
module CartFlows {
  import opened Common
  import opened CartActions
  import opened BrowserStorage
  import CartSidebar
  import CartView
  import Checkout

  /** Both components turn a requested quantity into the same action:
      `quantity <= 0` and `quantity < 1` coincide on integers. */
  lemma SteppersAgree(id: string, quantity: int)
    ensures CartSidebar.UpdateQuantityGesture(id, quantity).action == CartView.HandleUpdateQuantity(id, quantity)
  {
  }

  /** The sidebar's checkout followed by the checkout page's load: a
      non-empty cart arrives on the checkout page line for line, and the
      page's total is the cart's subtotal. */
  method SidebarCheckout(button: CartSidebar.CartButton, items: seq<LineItem>,
                         session: KeyValueStore<LineItem>)
    returns (page: Checkout.CheckoutPage, outcome: Checkout.LoadOutcome)
    modifies button, session
    ensures items != [] ==>
      outcome == Checkout.Loaded && page.checkoutItems == items && !page.isLoading &&
      page.CalculateTotal() == Subtotal(items)
  {
    var navigateTo, toast := button.HandleCheckout(items, session);
    page := new Checkout.CheckoutPage();
    var nav, t;
    outcome, nav, t := page.LoadSnapshot(session);
    if items != [] {
      SubtotalIsSumOfLineAmounts(items);
    }
  }

  /** The cart page's checkout as written, followed by the checkout page's
      load. In a session that holds no snapshot the page redirects home
      with "No items in cart", however many lines the cart has. */
  method CartPageCheckout(items: seq<LineItem>, session: KeyValueStore<LineItem>)
    returns (page: Checkout.CheckoutPage, outcome: Checkout.LoadOutcome,
             navigateTo: Option<string>, toast: Option<string>)
    ensures CheckoutItemsKey !in session.entries ==>
      outcome == Checkout.Redirected && page.checkoutItems == [] &&
      navigateTo == Some("/") && toast == Some("No items in cart")
  {
    var path := CartView.HandleCheckout();
    page := new Checkout.CheckoutPage();
    outcome, navigateTo, toast := page.LoadSnapshot(session);
  }

  /** The evidently intended `handleCheckout` of the cart page: like the
      sidebar's, it stores the lines as the snapshot before opening
      /checkout, and an empty cart only shows the error toast. */
  method CartPageHandleCheckout(items: seq<LineItem>, session: KeyValueStore<LineItem>)
    returns (navigateTo: Option<string>, toast: Option<string>)
    modifies session
    ensures items == [] ==>
      navigateTo == None && toast == Some("Your cart is empty!") && session.entries == old(session.entries)
    ensures items != [] ==>
      navigateTo == Some(CartView.HandleCheckout()) && toast == None &&
      session.entries == old(session.entries)[CheckoutItemsKey := Serialized(items)]
  {
    if items == [] {
      return None, Some("Your cart is empty!");
    }
    session.SetItem(CheckoutItemsKey, items);
    navigateTo, toast := Some(CartView.HandleCheckout()), None;
  }

  /** With the intended handler, a non-empty cart reaches the checkout page
      line for line, whatever the session held before. */
  method CartPageCheckoutIntended(items: seq<LineItem>, session: KeyValueStore<LineItem>)
    returns (page: Checkout.CheckoutPage, outcome: Checkout.LoadOutcome)
    modifies session
    ensures items != [] ==>
      outcome == Checkout.Loaded && page.checkoutItems == items && page.CalculateTotal() == Subtotal(items)
  {
    var navigateTo, toast := CartPageHandleCheckout(items, session);
    page := new Checkout.CheckoutPage();
    var nav, t;
    outcome, nav, t := page.LoadSnapshot(session);
    if items != [] {
      SubtotalIsSumOfLineAmounts(items);
    }
  }
}
