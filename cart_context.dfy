/** The cart provider of contexts/CartContext.tsx: the `items` and
    `isLoading` state it replaces through `setItems`/`setIsLoading`, the four
    operations it exposes, and the two effects that read and write the list
    in `localStorage` under `cart_<userId>`. The session lookup, which the
    source awaits from the identity provider, is an input. */
module CartContext {
  import opened Common
  import CartLines
  import opened BrowserStorage

  type CartItem = CartLines.CartItem

  /** What `supabase.auth.getSession()` gives: it throws, finds nobody, or
      finds a signed-in user. */
  datatype SessionLookup = LookupFailed | SignedOut | SignedIn(userId: string)

  /** The storage key of a user's cart. */
  function CartKey(userId: string): (key: string)
    ensures |key| == |userId| + 5 && key[..5] == "cart_" && key[5..] == userId
  {
    "cart_" + userId
  }

  /** Distinct users never share a storage key. */
  lemma CartKeyInjective(u: string, v: string)
    requires CartKey(u) == CartKey(v)
    ensures u == v
  {
    assert u == CartKey(u)[5..];
  }

  /** The list after the load effect, starting from `current`: the stored
      list of the signed-in user, if there is one that parses; otherwise
      (lookup throws, nobody signed in, key absent or empty, `JSON.parse`
      throws) `current` untouched. */
  function LoadedItems(session: SessionLookup, entries: map<string, Stored<CartItem>>,
                       current: seq<CartItem>): (r: seq<CartItem>)
    ensures !session.SignedIn? ==> r == current
    ensures session.SignedIn? && (CartKey(session.userId) !in entries || !entries[CartKey(session.userId)].Serialized?) ==>
      r == current
  {
    match session
    case SignedIn(u) =>
      if CartKey(u) in entries && entries[CartKey(u)].Serialized? then entries[CartKey(u)].items
      else current
    case _ => current
  }

  /** The storage after the save effect: nothing while loading or without a
      signed-in user; otherwise the user's key holds the current list.
      `writeAccepted` is the browser's answer to `setItem`, which throws when
      the quota is exceeded or storage is disabled; the source catches that
      and only logs it, so a rejected write leaves storage as it was. */
  function SavedEntries(session: SessionLookup, isLoading: bool, items: seq<CartItem>,
                        entries: map<string, Stored<CartItem>>, writeAccepted: bool): (r: map<string, Stored<CartItem>>)
    ensures isLoading || !session.SignedIn? || !writeAccepted ==> r == entries
    ensures forall k :: k in entries && !(session.SignedIn? && k == CartKey(session.userId)) ==>
      k in r && r[k] == entries[k]
  {
    if isLoading || !writeAccepted then entries
    else match session
      case SignedIn(u) => entries[CartKey(u) := Serialized(items)]
      case _ => entries
  }

  /** A list saved for a user is the list loaded for that user afterwards. */
  lemma SaveThenLoad(userId: string, items: seq<CartItem>, entries: map<string, Stored<CartItem>>,
                     current: seq<CartItem>)
    ensures LoadedItems(SignedIn(userId), SavedEntries(SignedIn(userId), false, items, entries, true), current) == items
  {
  }

  /** A rejected write changes nothing that a later load sees: the user gets
      back whatever was stored before, not the list that failed to save. */
  lemma RejectedSaveKeepsStoredCart(userId: string, items: seq<CartItem>,
                                    entries: map<string, Stored<CartItem>>, current: seq<CartItem>)
    ensures LoadedItems(SignedIn(userId), SavedEntries(SignedIn(userId), false, items, entries, false), current) ==
            LoadedItems(SignedIn(userId), entries, current)
  {
  }

  /** Saving one user's cart does not change what loads for another user. */
  lemma SaveKeepsOtherUsers(u: string, v: string, items: seq<CartItem>,
                            entries: map<string, Stored<CartItem>>, current: seq<CartItem>, writeAccepted: bool)
    requires u != v
    ensures LoadedItems(SignedIn(v), SavedEntries(SignedIn(u), false, items, entries, writeAccepted), current) ==
            LoadedItems(SignedIn(v), entries, current)
  {
    if CartKey(v) == CartKey(u) {
      CartKeyInjective(u, v);
    }
  }

  /** On mount the list is empty, so a read that fails in any way leaves it empty. */
  lemma FailedLoadLeavesEmpty(session: SessionLookup, entries: map<string, Stored<CartItem>>)
    requires session.SignedIn? ==>
      CartKey(session.userId) !in entries || !entries[CartKey(session.userId)].Serialized?
    ensures LoadedItems(session, entries, []) == []
  {
  }

  class CartProvider {
    var items: seq<CartItem>
    var isLoading: bool

    /** `useState([])` and `useState(true)`. */
    constructor ()
      ensures items == [] && isLoading
    {
      items := [];
      isLoading := true;
    }

    /** The mount effect `loadCart`; whatever happens, `isLoading` ends false. */
    method LoadCart(session: SessionLookup, storage: KeyValueStore<CartItem>)
      modifies this
      ensures items == LoadedItems(session, storage.entries, old(items))
      ensures !isLoading
    {
      if session.SignedIn? {
        var saved, present := storage.GetItem(CartKey(session.userId));
        if present && saved.Serialized? {
          items := saved.items;
        }
      }
      isLoading := false;
    }

    /** The effect `saveCart`, run whenever `items` or `isLoading` change. */
    method SaveCart(session: SessionLookup, storage: KeyValueStore<CartItem>, writeAccepted: bool)
      modifies storage
      ensures storage.entries == SavedEntries(session, isLoading, items, old(storage.entries), writeAccepted)
    {
      if isLoading {
        return;
      }
      if session.SignedIn? && writeAccepted {
        storage.SetItem(CartKey(session.userId), items);
      }
    }

    method AddToCart(item: CartLines.NewItem) returns (toast: string)
      modifies this
      ensures items == CartLines.AddToCart(old(items), item) && isLoading == old(isLoading)
      ensures old(CartLines.WellFormed(items)) ==> CartLines.WellFormed(items)
      ensures toast == "Added to cart"
    {
      if CartLines.WellFormed(items) {
        CartLines.AddToCartPreservesWellFormed(items, item);
      }
      items := CartLines.AddToCart(items, item);
      toast := "Added to cart";
    }

    method RemoveFromCart(id: string) returns (toast: string)
      modifies this
      ensures items == CartLines.RemoveFromCart(old(items), id) && isLoading == old(isLoading)
      ensures old(CartLines.WellFormed(items)) ==> CartLines.WellFormed(items)
      ensures toast == "Removed from cart"
    {
      if CartLines.WellFormed(items) {
        CartLines.RemoveFromCartPreservesWellFormed(items, id);
      }
      items := CartLines.RemoveFromCart(items, id);
      toast := "Removed from cart";
    }

    /** Below one this is `removeFromCart`, toast included; otherwise no toast. */
    method UpdateQuantity(id: string, quantity: int) returns (toast: Option<string>)
      modifies this
      ensures items == CartLines.UpdateQuantity(old(items), id, quantity) && isLoading == old(isLoading)
      ensures old(CartLines.WellFormed(items)) ==> CartLines.WellFormed(items)
      ensures toast == if quantity < 1 then Some("Removed from cart") else None
    {
      if quantity < 1 {
        var t := RemoveFromCart(id);
        toast := Some(t);
        return;
      }
      if CartLines.WellFormed(items) {
        CartLines.UpdateQuantityPreservesWellFormed(items, id, quantity);
      }
      items := CartLines.UpdateQuantity(items, id, quantity);
      toast := None;
    }

    method ClearCart()
      modifies this
      ensures items == [] && isLoading == old(isLoading)
      ensures CartLines.TotalItems(items) == 0 && CartLines.Subtotal(items) == 0
    {
      items := CartLines.ClearCart();
    }
  }
}
