/** The browser context the two applications share: the `cart-items` entry of local
    storage and the `cart-updated` events dispatched on `window`. Both are abstract:
    the stored text is represented by what JSON.parse would make of it, and an event
    by its `detail`. */
module Browser {
  import opened Js
  import opened CartTypes

  /** The `cart-items` entry: absent (`getItem` returns null), the empty string
      (falsy, so every reader treats it like an absent entry), text that JSON.parse
      rejects or that is not an item list, or a well-formed item list. */
  datatype Blob = Absent | EmptyText | Malformed | Items(items: seq<CartItem>)

  /** The `detail` of a `cart-updated` event. */
  datatype CartEvent = CartUpdated(items: seq<CartItem>, count: int)

  /** `stored ? JSON.parse(stored) : []`, with None standing for the exception
      JSON.parse throws (or the one the first use of a non-list throws). */
  function ParseStored(b: Blob): (r: Option<seq<CartItem>>)
    ensures r.None? <==> b.Malformed?
    ensures b.Items? ==> r == Some(b.items)
    ensures b.Absent? || b.EmptyText? ==> r == Some([])
  {
    match b
    case Absent => Some([])
    case EmptyText => Some([])
    case Malformed => None
    case Items(s) => Some(s)
  }

  /** The global `window`, or its absence during server rendering (`isBrowser`). */
  class Window {
    const isBrowser: bool
    /** `localStorage.getItem('cart-items')`. */
    var storage: Blob
    /** Every `cart-updated` event dispatched so far, oldest first. */
    var events: seq<CartEvent>

    constructor (isBrowser: bool, storage: Blob)
      ensures this.isBrowser == isBrowser && this.storage == storage && events == []
    {
      this.isBrowser := isBrowser;
      this.storage := storage;
      events := [];
    }

    /** `localStorage.setItem('cart-items', JSON.stringify(items))`. */
    method SetItem(items: seq<CartItem>)
      requires isBrowser
      modifies this
      ensures storage == Items(items) && events == old(events)
    {
      storage := Items(items);
    }

    /** `window.dispatchEvent(new CustomEvent('cart-updated', { detail: e }))`. */
    method DispatchEvent(e: CartEvent)
      requires isBrowser
      modifies this
      ensures events == old(events) + [e] && storage == old(storage)
    {
      events := events + [e];
    }
  }
}
