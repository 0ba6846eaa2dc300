/** The home application's `useCart` hook: a badge counter kept in step with the
    shared stored list, and its own add-to-cart that writes that list directly. */
module UseCart {
  import opened Js
  import opened CartTypes
  import opened Browser

  /** One mounted instance of the hook: its two pieces of React state and the
      browser it runs in. State setters are modelled as immediate assignments. */
  class CartHook {
    const window: Window
    var cartCount: int
    var loading: bool

    /** `useState(0)`, `useState(false)`. */
    constructor (window: Window)
      ensures this.window == window && cartCount == 0 && !loading
    {
      this.window := window;
      cartCount := 0;
      loading := false;
    }

    /** `loadCartCount`, run once on mount: a present, parseable list sets the
      counter to its quantity sum; an absent, empty or malformed entry (the parse
      error is caught) leaves the counter as it was. */
    method LoadCartCount()
      modifies this`cartCount
      ensures window.isBrowser && window.storage.Items? ==> cartCount == TotalQuantity(window.storage.items)
      ensures !(window.isBrowser && window.storage.Items?) ==> cartCount == old(cartCount)
    {
      if !window.isBrowser {
        return;
      }
      match window.storage
      case Items(items) =>
        cartCount := TotalQuantity(items);
      case _ =>
    }

    /** `handleCartUpdate`: `setCartCount(event.detail.count || 0)`; a missing
      count (None) reads as 0. */
    method HandleCartUpdate(count: Option<int>)
      modifies this`cartCount
      ensures count.Some? ==> cartCount == count.value
      ensures count.None? ==> cartCount == 0
    {
      if count.Some? && count.value != 0 {
        cartCount := count.value;
      } else {
        cartCount := 0;
      }
    }

    /** `addToCart`: outside a browser nothing happens. Otherwise the stored list
      is read (a parse error is caught: nothing is written or dispatched), the
      increment-or-append rule is applied to it, the result is stored, the counter
      becomes its quantity sum and one `cart-updated` event carries both. `loading`
      is false afterwards in every browser case. */
    method AddToCart(req: AddToCartRequest)
      modifies this, window
      ensures !window.isBrowser ==>
        && cartCount == old(cartCount) && loading == old(loading)
        && window.storage == old(window.storage) && window.events == old(window.events)
      ensures window.isBrowser ==> !loading
      ensures window.isBrowser && old(window.storage).Malformed? ==>
        && cartCount == old(cartCount)
        && window.storage == old(window.storage) && window.events == old(window.events)
      ensures window.isBrowser && !old(window.storage).Malformed? ==>
        var items := AddToItems(ParseStored(old(window.storage)).value, req);
        && window.storage == Items(items)
        && cartCount == TotalQuantity(items)
        && window.events == old(window.events) + [CartUpdated(items, TotalQuantity(items))]
    {
      if !window.isBrowser {
        return;
      }
      loading := true;
      var stored := ParseStored(window.storage);
      if stored.Some? {
        var items := stored.value;
        var found := FindIndex(items, req.id);
        if found.Some? {
          var i := found.value;
          items := items[i := items[i].(quantity := items[i].quantity + 1)];
        } else {
          items := items + [NewLine(req)];
        }
        window.SetItem(items);
        var newCount := TotalQuantity(items);
        cartCount := newCount;
        window.DispatchEvent(CartUpdated(items, newCount));
      }
      loading := false;
    }
  }
}
