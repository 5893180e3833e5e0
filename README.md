# GenCoverAi storefront cart, checkout and routing logic in Dafny

This project models the logic of a Next.js storefront for custom phone
covers. It covers the following pieces:

- **The cart store** of `contexts/CartContext.tsx`. It holds an ordered list
  of lines keyed by id and offers add, remove, update-quantity and clear. It
  derives the item count and the subtotal from the list. It keeps the list
  in `localStorage` under `cart_<userId>`.
- **The two cart components.**
  - `components/cart.tsx` is the sidebar and its button.
  - `components/cart/Cart.tsx` is the cart page.

  Both turn stepper and remove gestures into actions for the reducer store.
  The sidebar also hands a frozen snapshot of the lines to checkout under
  the `sessionStorage` key `checkoutItems`.
- **The checkout page** of `app/checkout/page.tsx`. It loads that snapshot
  or sends the visitor home. It edits the shipping form one field at a
  time, shows the total, and places a simulated order that removes the
  snapshot.
- **The route guard** of `middleware.ts`. It is a decision over the request
  path, the presence of a session and the `redirectedFrom` parameter.
- **The dashboard helpers** of `app/dashboard/page.tsx`:
  - the status label and status colour;
  - the order sum and status filter;
  - the design search and filter;
  - the phone-model label of an order;
  - the cart-count badge.
- **The brand → model → case-type picker** of
  `components/phone-model-selector.tsx`.
- **The gallery** of `app/gallery/page.tsx`: a fixed catalog, its filter,
  and the `ADD_ITEM` action of its "Add to Cart" button.

There is one module per source file:

| module | source file |
|---|---|
| `CartLines`, `CartContext` | contexts/CartContext.tsx |
| `CartSidebar` | components/cart.tsx |
| `CartView` | components/cart/Cart.tsx |
| `Checkout` | app/checkout/page.tsx |
| `Middleware` | middleware.ts |
| `Dashboard` | app/dashboard/page.tsx |
| `PhoneModelSelector` | components/phone-model-selector.tsx |
| `Gallery` | app/gallery/page.tsx |

`CartFlows` connects the cart components to the checkout page.

Four shared modules support them:

- `Common` holds `Option`, a generic `Sum` (the source's `reduce`), `Filter`
  and the order-preserving subsequence relation.
- `Text` holds ASCII case mapping, `startsWith`, `includes`, `split` and
  `join`.
- `BrowserStorage` is a key-value store class. It stands for
  `localStorage`/`sessionStorage` seen through `JSON.stringify`/`JSON.parse`.
- `CartActions` holds the line and action shapes of the reducer store in
  `lib/cart-context`.

State that the source changes in place is held in classes, and each class
has methods with `modifies` clauses:

| class | state |
|---|---|
| `CartContext.CartProvider` | `items`, `isLoading` |
| `CartSidebar.CartButton` | `isOpen` |
| `Checkout.CheckoutPage` | `isLoading`, `checkoutItems`, `formData` |
| `PhoneModelSelector.Selector` | the three selections |
| `BrowserStorage.KeyValueStore` | the storage map |

Toasts, navigation, dispatched actions and the picker's callbacks are
returned as values.

The identity provider's session lookup is an input:

- in the cart store, `SessionLookup`, which fails, finds nobody, or finds a
  user id;
- in the route guard, a boolean;
- in the dashboard's "recent" filter, the current time is an input.

Prices and quantities are integers. JavaScript's `quantity <= 0` (sidebar)
and `quantity < 1` (cart page) therefore select the same integers.
`CartFlows.SteppersAgree` states this.

## Model

| member | source | states |
|---|---|---|
| CartLines.WithQuantity | contexts/CartContext.tsx:82 | the line built from a new item keeps every field of the item (id, image, prompt, style, price, creation time) and gets the given quantity |
| CartLines.MapQuantity | contexts/CartContext.tsx:78-80 | the mapped list has the same length; each line with the id gets its new quantity and every other line is unchanged |
| CartLines.AddToCart | contexts/CartContext.tsx:74-83 | the result always holds the id. An absent id appends the item with quantity 1 after the unchanged lines. A present id keeps the length and order: the line with the id gains exactly one unit and every other line is unchanged |
| CartLines.RemoveFromCart | contexts/CartContext.tsx:87-88 | the result holds exactly the lines whose id differs, and no line with the id. An absent id leaves the list unchanged; a present one makes it strictly shorter |
| CartLines.UpdateQuantity | contexts/CartContext.tsx:92-102 | below one it is exactly `RemoveFromCart`. Otherwise the length is kept, the line with the id gets exactly that quantity, and all other lines are unchanged. An absent id leaves the list unchanged |
| CartLines.ClearCart | contexts/CartContext.tsx:104-106 | clearing leaves no line |
| CartLines.AddToCartPreservesWellFormed | contexts/CartContext.tsx:74-83 | distinct ids with every quantity at least one still hold after an add |
| CartLines.RemoveFromCartPreservesWellFormed | contexts/CartContext.tsx:87-90 | distinct ids with every quantity at least one still hold after a removal |
| CartLines.UpdateQuantityPreservesWellFormed | contexts/CartContext.tsx:92-102 | distinct ids with every quantity at least one still hold after a quantity update, whatever the quantity |
| CartLines.ClearCartIsWellFormedAndEmpty | contexts/CartContext.tsx:104-109 | the cleared cart satisfies the invariant and has an item count and a subtotal of 0 |
| CartLines.AddToCartTotals | contexts/CartContext.tsx:74-109 | with distinct ids, an add raises the item count by exactly one. It raises the subtotal by the price of the line that gained the unit: the new item's price when appended, the existing line's price otherwise |
| CartLines.AddTwiceScenario | contexts/CartContext.tsx:74-109 | adding a 299-priced item twice to an empty cart gives one line, 2 items and a subtotal of 598 |
| CartLines.AddTwiceIsUpdateToTwo | contexts/CartContext.tsx:74-102 | adding a new id twice gives the same list as adding it once and setting its quantity to 2 |
| CartLines.UpdateToZeroScenario | contexts/CartContext.tsx:93-109 | with lines A (2 at 100) and B (1 at 50), setting A to 0 leaves [B] with a subtotal of 50 |
| CartLines.RemoveFromCartKeepsOrder | contexts/CartContext.tsx:88 | the surviving lines are an order-preserving subsequence of the original list |
| CartLines.TotalItems | contexts/CartContext.tsx:108 | the item count is 0 for no lines and, when every quantity is at least one, at least the number of lines |
| CartLines.Subtotal | contexts/CartContext.tsx:109 | the subtotal is 0 for no lines and non-negative when every price and quantity is |
| CartLines.RemoveFromCartAppend | contexts/CartContext.tsx:88 | removal distributes over concatenation, so the survivors keep their relative order |
| CartContext.CartKey | contexts/CartContext.tsx:44-65 | the storage key is exactly the five characters "cart_" followed by the whole user id, so it is five characters longer than the id |
| CartContext.CartKeyInjective | contexts/CartContext.tsx:44-65 | two users with the same storage key are the same user |
| CartContext.LoadedItems | contexts/CartContext.tsx:41-50 | without a signed-in user, or when that user's key is absent, holds the empty string or does not parse, the list is left as it was |
| CartContext.SavedEntries | contexts/CartContext.tsx:59-69 | while loading, without a signed-in user, or when the browser rejects the write (the caught `setItem` error), storage is untouched. In every case each key other than the user's own keeps its value |
| CartContext.SaveThenLoad | contexts/CartContext.tsx:41-66 | a list saved for a user, when the browser accepts the write, is exactly the list loaded for that user afterwards |
| CartContext.RejectedSaveKeepsStoredCart | contexts/CartContext.tsx:59-69 | when the browser rejects the write, a later load gives what the earlier storage gave |
| CartContext.SaveKeepsOtherUsers | contexts/CartContext.tsx:44-65 | saving one user's cart does not change what loads for any other user |
| CartContext.FailedLoadLeavesEmpty | contexts/CartContext.tsx:32-50 | when the key is absent or does not parse, or when there is no user, the list that starts empty stays empty |
| CartContext.CartProvider.constructor | contexts/CartContext.tsx:32-33 | the provider starts with no lines and loading |
| CartContext.CartProvider.LoadCart | contexts/CartContext.tsx:38-56 | after the load effect the lines are those `LoadedItems` gives and loading is over, whatever happened |
| CartContext.CartProvider.SaveCart | contexts/CartContext.tsx:59-72 | the save effect leaves storage exactly as `SavedEntries` gives, for an accepted and for a rejected write |
| CartContext.CartProvider.AddToCart | contexts/CartContext.tsx:74-85 | the lines become `CartLines.AddToCart` of the old ones and the invariant is kept; the toast is "Added to cart" |
| CartContext.CartProvider.RemoveFromCart | contexts/CartContext.tsx:87-90 | the lines become `CartLines.RemoveFromCart` of the old ones and the invariant is kept; the toast is "Removed from cart" |
| CartContext.CartProvider.UpdateQuantity | contexts/CartContext.tsx:92-102 | the lines become `CartLines.UpdateQuantity` of the old ones and the invariant is kept. The removal toast appears exactly when the quantity is below one |
| CartContext.CartProvider.ClearCart | contexts/CartContext.tsx:104-106 | no lines remain; the item count and the subtotal are 0 |
| CartActions.TotalItems | components/cart/Cart.tsx:41 | the page's item count is 0 for no lines and, when every quantity is at least one, at least the number of lines |
| CartActions.Subtotal | components/cart/Cart.tsx:42 | the page's subtotal is 0 for no lines and non-negative when every price and quantity is |
| CartActions.SubtotalOfLines | components/cart/Cart.tsx:41-42 | both totals are 0 for no lines, and appending a line adds its quantity and its price × quantity |
| CartActions.SubtotalNonNegative | components/cart/Cart.tsx:41-42 | with non-negative prices and quantities both totals are non-negative |
| CartActions.LineAmounts | components/cart/Cart.tsx:121 | one displayed amount per line, in order, each the line's price × quantity |
| CartActions.SubtotalIsSumOfLineAmounts | components/cart/Cart.tsx:41-42 | the subtotal equals the sum of the per-line amounts the page displays |
| CartSidebar.UpdateQuantityGesture | components/cart.tsx:14-21 | exactly one action about the given id. It is a removal exactly when the quantity is ≤ 0, and otherwise an update carrying that quantity (≥ 1). The toast appears exactly with the removal |
| CartSidebar.RemoveItemGesture | components/cart.tsx:23-26 | always a removal of the given id, with the "Item removed from cart" toast. The handler is constant; `CartSidebar.StepperSteps` and `CartFlows.SteppersAgree` relate it to the stepper |
| CartSidebar.StepperSteps | components/cart.tsx:108-115 | minus sends quantity − 1 and plus quantity + 1. Minus on a single unit gives exactly what the remove button gives |
| CartSidebar.CountBadge | components/cart.tsx:45-47 | the badge is present exactly when the count is positive and then shows the count |
| CartSidebar.CartButton.constructor | components/cart.tsx:10 | the sidebar starts closed |
| CartSidebar.CartButton.Open | components/cart.tsx:41 | the button opens the sidebar |
| CartSidebar.CartButton.Close | components/cart.tsx:33 | closing leaves the sidebar closed |
| CartSidebar.CartButton.HandleCheckout | components/cart.tsx:28-36 | an empty cart only toasts "Your cart is empty!": nothing is stored, there is no navigation and the sidebar is as it was. Otherwise the sidebar closes, the lines are stored under 'checkoutItems' with all other keys unchanged, and the page goes to /checkout |
| CartView.HandleRemoveItem | components/cart/Cart.tsx:14-16 | the remove button dispatches a removal of exactly that id. The handler is constant; `CartView.HandleUpdateQuantity` and `CartFlows.SteppersAgree` relate it to the stepper |
| CartView.HandleUpdateQuantity | components/cart/Cart.tsx:18-24 | a removal exactly when the quantity is below one, and then the same removal as the remove button; otherwise an update of that id carrying the quantity (≥ 1) |
| CartView.HandleClearCart | components/cart/Cart.tsx:26-28 | "Clear All" always dispatches CLEAR_CART. The handler is constant; `CartLines.ClearCartIsWellFormedAndEmpty` states what clearing does to a cart |
| CartView.HandleCheckout | components/cart/Cart.tsx:30-38 | checkout only opens /checkout. The handler is constant; `CartFlows.CartPageCheckout` states its consequence on the checkout page |
| CartView.StepperSteps | components/cart/Cart.tsx:106-115 | minus sends quantity − 1 and plus quantity + 1; minus on a single unit removes the line |
| CartView.Render | components/cart/Cart.tsx:40-121 | the empty state is rendered exactly for no lines, and its only button opens /generate. Otherwise the header totals are the item count and the subtotal, the line amounts are price × quantity per line, and the subtotal is their sum |
| CartFlows.SteppersAgree | components/cart.tsx:14-21 | for every integer quantity the two components dispatch the same action |
| CartFlows.SidebarCheckout | components/cart.tsx:28-36 | after the sidebar's checkout, the checkout page loads a non-empty cart line for line, and its total is the cart's subtotal |
| CartFlows.CartPageCheckout | components/cart/Cart.tsx:30-38 | after the cart page's checkout in a session holding no snapshot, the checkout page shows no lines and sends the visitor home with "No items in cart" |
| CartFlows.CartPageHandleCheckout | components/cart.tsx:28-36 | the corrected cart-page handler stores the lines under 'checkoutItems' and opens /checkout, or only toasts for an empty cart |
| CartFlows.CartPageCheckoutIntended | components/cart/Cart.tsx:30-38 | with the corrected handler, a non-empty cart reaches the checkout page line for line |
| Checkout.WithField | app/checkout/page.tsx:35-41 | the named field takes the value and every other field keeps its own |
| Checkout.InitialForm | app/checkout/page.tsx:12-21 | every text field starts empty and the payment method starts as 'cod' |
| Checkout.RequiredFieldsFilled | app/checkout/page.tsx:96-197 | the form can be submitted exactly when every field other than the payment method is non-empty |
| Checkout.FillingFieldsEnablesSubmit | app/checkout/page.tsx:106-195 | filling each required field with a non-empty value, one field at a time, makes the form submittable |
| Checkout.CheckoutPage.constructor | app/checkout/page.tsx:10-21 | the page starts loading, with no lines and the initial form |
| Checkout.CheckoutPage.LoadSnapshot | app/checkout/page.tsx:24-33 | a stored snapshot becomes the page's lines. A missing or empty one toasts "No items in cart", goes to '/' and keeps the lines. Either way loading ends and the spinner is gone. A snapshot that does not parse throws before any state changes |
| Checkout.CheckoutPage.HandleInputChange | app/checkout/page.tsx:35-41 | the form becomes `WithField` of the old form; the lines and loading are unchanged |
| Checkout.CheckoutPage.CalculateTotal | app/checkout/page.tsx:43-45 | the total is the sum of the summary's per-line price × quantity amounts, and 0 for no lines |
| Checkout.CheckoutPage.HandlePlaceOrder | app/checkout/page.tsx:47-59 | loading starts and only the 'checkoutItems' key is removed. The page goes to /orders/success with "Order placed successfully!". The spinner-only view shows exactly when there are no lines |
| Checkout.CheckoutPage.SubmitForm | app/checkout/page.tsx:47-240 | while an order is being placed (the button is disabled) or with a required field empty nothing changes; otherwise the order is placed as `HandlePlaceOrder` does |
| Middleware.Decide | middleware.ts:28-116 | a login redirect happens only without a session on a non-public path and carries that path; a redirect to a page happens only with a session on an auth page and to a non-empty target; without a session there is no such redirect |
| Middleware.RedirectTarget | middleware.ts:61 | the target is never empty: a present, non-empty `redirectedFrom` is used as it is, and anything else means '/' |
| Middleware.PublicIffRooted | middleware.ts:4-28 | a path is public exactly when it starts with '/' |
| Middleware.LoginRedirectUnreachable | middleware.ts:28-114 | no path starting with '/' is ever redirected to login, and without a session every such request passes through |
| Middleware.AuthPathsArePublic | middleware.ts:4-29 | every auth path is listed as public, and every path with an auth prefix is public |
| Middleware.AuthPageWithSession | middleware.ts:29-62 | an auth page with a session redirects to `redirectedFrom`, or to '/' when it is absent or empty |
| Middleware.PublicPassesThrough | middleware.ts:28-66 | a public path that is not an auth page, or an auth page without a session, passes through |
| Middleware.NonPublicPaths | middleware.ts:102-116 | outside the public list: '/auth/logout' passes, a request without a session goes to login carrying its path, and a request with a session passes |
| Middleware.PrefixClassification | middleware.ts:21-29 | '/auth/login-x' counts as an auth page, so a signed-in visitor is redirected from it |
| Middleware.DashboardUnguarded | middleware.ts:5-114 | as written, a signed-out request for /dashboard passes through |
| Middleware.IntendedGuardsDashboard | middleware.ts:4-114 | with '/' matched exactly, a signed-out request for /dashboard goes to login, while '/' and the auth pages stay open |
| Middleware.IntendedDiffersOnlyWithoutSession | middleware.ts:28-116 | with a session the corrected guard answers as the original on every path. Without one, it sends every path outside its public list, other than logout, to login |
| Dashboard.Capitalize | app/dashboard/page.tsx:199 | capitalizing a word keeps its length |
| Dashboard.CapitalizeAll | app/dashboard/page.tsx:199 | one capitalized word per word, in order |
| Dashboard.TitleCase | app/dashboard/page.tsx:197-200 | the character-level reference for the label. '_' becomes a space. The first letter of each word is upper-cased and every other letter lower-cased |
| Dashboard.SplitMapJoinIsTitleCase | app/dashboard/page.tsx:197-200 | the split / capitalize / join of the source equals the character-level reference |
| Dashboard.StatusDisplayName | app/dashboard/page.tsx:195-201 | a missing or empty status reads 'Pending'; any other is the character-level title case of the status |
| Dashboard.StatusDisplayNameShape | app/dashboard/page.tsx:195-201 | the label of a non-empty status has its length and contains no '_'. Each character matches the status ignoring case. There is one word more than there are underscores |
| Dashboard.StatusDisplayNamePending | app/dashboard/page.tsx:196 | a missing or empty status reads 'Pending' |
| Dashboard.StatusDisplayNameInTransit | app/dashboard/page.tsx:197-200 | 'in_transit' reads 'In Transit' |
| Dashboard.StatusColor | app/dashboard/page.tsx:175-193 | a missing status is gray, and a colour other than gray means the lower-cased status names one of the five stages |
| Dashboard.ColoredIsStaged | app/dashboard/page.tsx:176-191 | only a lower-cased status the switch names gets a colour other than gray |
| Dashboard.StatusColorIgnoresCase | app/dashboard/page.tsx:176 | the colour of a status equals that of its lower-cased and its upper-cased forms |
| Dashboard.StatusColorStages | app/dashboard/page.tsx:175-193 | statuses naming the same stage share a colour, and different stages have different colours. The pairs are processing/in_progress, shipped/in_transit and delivered/completed. A named stage is never gray |
| Dashboard.StatusColorDefault | app/dashboard/page.tsx:190-191 | a status naming no stage is gray, like a missing status |
| Dashboard.RenderedStatusLabel | app/dashboard/page.tsx:422 | the badge both order lists show keeps the status's length, upper-cases only its first character and keeps the rest as stored |
| Dashboard.RenderedStatusColor | app/dashboard/page.tsx:418-420 | the badge is green exactly for 'delivered' and blue exactly for 'processing', matched case-sensitively, and yellow otherwise |
| Dashboard.RenderedLabelKeepsUnderscores | app/dashboard/page.tsx:422 | every '_' after the first character stays '_' on the rendered badge, where `getStatusDisplayName` would show a space |
| Dashboard.RenderedInTransit | app/dashboard/page.tsx:470 | 'in_transit' is rendered 'In_transit' |
| Dashboard.RenderedInTransitDiffersFromHelper | app/dashboard/page.tsx:195-201 | the rendered 'in_transit' badge differs from the helper's 'In Transit' |
| Dashboard.RenderedPendingColorDiffersFromHelper | app/dashboard/page.tsx:465-467 | a 'pending' order is rendered yellow, not with the class `getStatusColor` gives it |
| Dashboard.TotalOrdersAmount | app/dashboard/page.tsx:204-207 | the sum is 0 for no orders and non-negative when every order total is |
| Dashboard.TotalOrdersAmountAdds | app/dashboard/page.tsx:204-207 | the sum is 0 for no orders and each order adds its total, a missing total adding 0 |
| Dashboard.FilteredOrders | app/dashboard/page.tsx:210-213 | 'all' keeps every order. Any other filter keeps exactly the orders whose status equals it ignoring case. The result preserves the orders' order |
| Dashboard.FilteredOrdersIgnoreCase | app/dashboard/page.tsx:212 | a filter value and its lower-cased form select the same orders |
| Dashboard.OrderPhoneModel | app/dashboard/page.tsx:224-246 | anything other than 'Phone Case' comes from a first item that exists and carries a phone model |
| Dashboard.OrderPhoneModelCases | app/dashboard/page.tsx:237-240 | an object model gives brand and model joined by a space, skipping empty parts |
| Dashboard.OrderPhoneModelFallbacks | app/dashboard/page.tsx:224-245 | no items, a null first item or an unusable model give 'Phone Case'; a string model is shown as it is |
| Dashboard.FilteredDesigns | app/dashboard/page.tsx:151-167 | a design is listed exactly when its prompt, style or name contains the search ignoring case and it passes the filter; the result preserves the designs' order |
| Dashboard.EmptySearchKeepsDescribedDesigns | app/dashboard/page.tsx:152-166 | under 'all', an empty search lists exactly the designs having a prompt, a style or a name |
| Dashboard.RecentFilterIsRecent | app/dashboard/page.tsx:159-164 | under 'recent' every listed design was created less than 604800000 ms (7 days) before now |
| Dashboard.SavedFilterMatchesNothing | app/dashboard/page.tsx:159-167 | as written, the 'saved' option lists nothing |
| Dashboard.FilteredDesignsIntended | app/dashboard/page.tsx:151-167 | the corrected filter lists exactly the matching designs that pass 'all', 'recent' or 'saved'; the result preserves the designs' order |
| Dashboard.IntendedSavedFilter | app/dashboard/page.tsx:151-167 | with the corrected filter, 'saved' lists exactly the saved designs matching the search, and every other option behaves as written |
| Dashboard.CartCount | app/dashboard/page.tsx:74-81 | the count is 0 for no stored values and non-negative when every stored quantity is |
| Dashboard.CartCountAdds | app/dashboard/page.tsx:77-78 | the count is 0 for no stored values and each value adds its quantity, a missing quantity adding 0 |
| Dashboard.CartBadge | app/dashboard/page.tsx:274-278 | the badge shows exactly for a positive count. It then lies between 1 and 9, equals the count up to 9, and is 9 above |
| PhoneModelSelector.EveryBrandHasModels | components/phone-model-selector.tsx:23-73 | every brand button leads to a non-empty list of models |
| PhoneModelSelector.CaseTypeOrStandard | components/phone-model-selector.tsx:132-144 | the case type is never empty, and a non-empty one is kept |
| PhoneModelSelector.ModelFor | components/phone-model-selector.tsx:124-133 | the built model has the option's id and name, `model` = id and `modelName` = name, the selected brand, no cases, image '/phones/'+id+'.png', and the case type or 'standard' |
| PhoneModelSelector.Selector.constructor | components/phone-model-selector.tsx:86-92 | the initial state copies the current selection's brand, the model itself and its case type, defaulting to empty |
| PhoneModelSelector.Selector.SyncSelection | components/phone-model-selector.tsx:95-101 | a new selection is copied the same way; without one nothing changes |
| PhoneModelSelector.Selector.HandleBrandSelect | components/phone-model-selector.tsx:103-107 | the brand is set, the model cleared and the case type set to 'standard' |
| PhoneModelSelector.Selector.HandleCaseTypeSelect | components/phone-model-selector.tsx:109-119 | the case type is always set and the brand kept. A selected model is updated with it and reported once; without a model nothing is reported |
| PhoneModelSelector.Selector.HandleModelSelect | components/phone-model-selector.tsx:121-137 | without a brand nothing changes and nothing is reported; otherwise `ModelFor` is stored and reported once |
| PhoneModelSelector.Selector.HandleSubmit | components/phone-model-selector.tsx:139-151 | with a brand and a model, the model is reported with its case type defaulted, then the picker closes. Otherwise only the error toast appears. When submit is enabled the reported case type is the selected one |
| Gallery.CatalogWellFormed | app/gallery/page.tsx:23-72 | catalog ids are pairwise distinct and every price is positive |
| Gallery.FilteredDesigns | app/gallery/page.tsx:74-78 | a design is listed exactly when its name contains the search ignoring case and its category is the selected one ('all' accepting any); the result preserves catalog order |
| Gallery.EmptySearchListsCatalog | app/gallery/page.tsx:23-78 | an empty search under 'all' lists all six designs in catalog order |
| Gallery.EveryCategoryHasDesigns | app/gallery/page.tsx:14-78 | with an empty search every category button lists at least one design |
| Gallery.NoDesignsFound | app/gallery/page.tsx:197 | the empty-result message shows exactly when no catalog design passes both the search and the category |
| Gallery.AddToCart | app/gallery/page.tsx:80-100 | ADD_ITEM carries the design's id, name, price and image and exactly the universal phone model (id, brand and model 'universal', name 'Universal', placeholder image, case type 'standard', no cases); the toast is "Added to cart!" |
| Gallery.AddToCartDistinguishesDesigns | app/gallery/page.tsx:23-99 | two different catalog designs are added under different ids, each with a positive price |
| Text.Lower | app/gallery/page.tsx:75 | lower-casing keeps the length and maps each character on its own |
| Text.Upper | app/dashboard/page.tsx:199 | upper-casing keeps the length and maps each character on its own |
| Text.LowerIdempotent | app/dashboard/page.tsx:210-213 | lower-casing twice is lower-casing once |
| Text.ContainsAt | app/gallery/page.tsx:75 | `includes` holds exactly when the term occurs at some position |
| Text.ContainsEmpty | app/gallery/page.tsx:75 | every string includes the empty string |
| Text.Split | app/dashboard/page.tsx:198 | splitting on '_' gives one piece more than there are underscores, and no piece contains '_' |
| Text.JoinSplit | app/dashboard/page.tsx:198-200 | joining the pieces back with the separator restores the string |
| BrowserStorage.KeyValueStore.GetItem | app/checkout/page.tsx:25 | an item is found exactly when its key is present, and then it is the stored value |
| BrowserStorage.KeyValueStore.SetItem | components/cart.tsx:34 | the key takes the serialised list and every other key is unchanged |
| BrowserStorage.KeyValueStore.RemoveItem | app/checkout/page.tsx:54 | only the given key disappears |

## Left out

- The `lib/cart-context` reducer store is not part of this model. It handles
  the actions the sidebar, the cart page and the gallery dispatch, and keeps
  `state.itemCount`/`state.total`. Its actions are modelled as output values
  only, and no part of the model relies on it behaving like `contexts/CartContext.tsx`.
  The sidebar badge is therefore stated over a given item count.
- The dashboard markup never calls `getStatusColor`, `getStatusDisplayName`,
  `filteredOrders`, `filteredDesigns` or `getOrderPhoneModel`. Only
  `totalOrdersAmount` is shown. Those five helpers are modelled as written,
  but what the page shows is modelled separately. Both order lists render
  the inline badge (`Dashboard.RenderedStatusLabel`,
  `Dashboard.RenderedStatusColor`), and both render every order, unfiltered.
- The dashboard's cart count reads the key 'cart'. Which code writes that key
  is not part of this model. The count is stated over the stored quantities.
- Identity-provider calls, database reads and the dashboard's fetch effect are
  foreign calls. Their answers are inputs: a session lookup, a session flag,
  and lists of orders and designs.
- Cookie adapters in `middleware.ts` and the `config.matcher` pattern are
  left out. The guard is modelled for the requests that reach it.
- `JSON.stringify`/`JSON.parse` are left out. A stored value is a list, the
  empty string, or unparseable text.
- Storage values are modelled as `Serialized`, `Blank` or `Unparseable`.
  Every reader of storage tests the value with `if (value)`, so `Blank` (the
  empty string) reads like a missing key. This holds for the cart load at
  contexts/CartContext.tsx:45 and for the checkout snapshot at
  app/checkout/page.tsx:26.
- `CartContext.CartProvider.LoadCart`: a stored value that parses but is not
  a list of cart lines is not modelled. A `getItem` that throws is caught by
  the same `try` and leaves the list as it was, which is the outcome of a
  failed session lookup. It is not a separate case.
- The sidebar's `sessionStorage.setItem` at components/cart.tsx:34 is not
  wrapped in a `try`. The model assumes that write succeeds; a rejected
  write would throw before the sidebar closes and before navigation.
- `Checkout.CheckoutPage.HandlePlaceOrder`: the 1500 ms delay is not
  modelled. The state after the delay is stated, and the intermediate state
  with loading set but the snapshot still stored is not.
- `Checkout.CheckoutPage.SubmitForm`: only the `required` attribute is
  modelled. The browser's e-mail format check on the e-mail field is not
  modelled.
- `Dashboard.FilteredDesigns` takes the current time as an input. Date
  parsing is left out: `createdAt` is the parsed time in milliseconds, and
  it is absent when `created_at` is empty or invalid. `formatDate` and
  `toLocaleDateString` are display-only.
- Case mapping covers ASCII letters only. JavaScript's Unicode case mapping
  is out of scope.
- Floating-point prices are out of scope, as are the `NaN` totals that
  non-numeric data would give. Prices, quantities and totals are integers.
- Rendering-only markup is out of scope: images, icons, the category buttons'
  styling, and the likes count (carried as data, never computed with).
- The toasts' visual kinds (success or error) are not distinguished. Only
  their texts are modelled.
- Image and text generation, e-mail, authentication pages and static pages
  are outside the modelled core.

## Findings

| source | as written | input that shows it | evidently intended | confidence | as-written member | corrected member |
|---|---|---|---|---|---|---|
| middleware.ts:4-28 | '/' is a public path and paths are matched with `startsWith`, so every path is public and the login redirect at 107-114 can never happen | a signed-out request for `/dashboard` passes through | '/' matched exactly, other entries by prefix, so private pages send signed-out visitors to login | high; not executed | Middleware.DashboardUnguarded | Middleware.IntendedGuardsDashboard |
| components/cart/Cart.tsx:30-38 | the cart page's checkout opens /checkout without storing the 'checkoutItems' snapshot the checkout page reads at app/checkout/page.tsx:25-31 | a non-empty cart, checked out from the cart page in a session with no earlier snapshot, lands on '/' with "No items in cart" | store the snapshot before navigating, as components/cart.tsx:33-35 does | high; not executed | CartFlows.CartPageCheckout | CartFlows.CartPageCheckoutIntended |
| app/dashboard/page.tsx:162-164 | the `filteredDesigns` helper accepts only 'all' and 'recent', so it returns nothing for 'saved', the "Saved Only" option offered at line 372. The markup never renders the helper's result | any designs, filter 'saved' | 'saved' keeps the designs whose `saved` flag is set | medium; not executed | Dashboard.SavedFilterMatchesNothing | Dashboard.IntendedSavedFilter |
