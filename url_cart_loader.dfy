/** The cart page's URL loader: a cart handed over in the `data` query parameter is
    replayed into the store as one clear followed by one add per unit. */
module UrlCartLoader {
  import opened Js
  import opened CartTypes
  import opened CartSlice
  import opened Browser

  /** What `JSON.parse(atob(decodeURIComponent(data)))` yields: an exception (bad
      percent-encoding, bad base64 or bad JSON), a value that is not an array, or
      a list of cart items. */
  datatype Decoded = Undecodable | NotAList | ItemList(items: seq<CartItem>)

  /** A dispatched action. */
  datatype Action = ClearCartAction | AddToCartAction(req: AddToCartRequest)

  /** The add payload built from a URL item: every field but the quantity. */
  function Payload(item: CartItem): (r: AddToCartRequest)
    ensures NewLine(r) == item.(quantity := 1)
  {
    AddToCartRequest(item.id, item.name, item.category, item.price, item.imageUrl)
  }

  /** `n` copies of an action; none when `n <= 0`. */
  function Repeat(a: Action, n: int): (r: seq<Action>)
    ensures |r| == if n <= 0 then 0 else n
    ensures forall k :: 0 <= k < |r| ==> r[k] == a
    decreases n
  {
    if n <= 0 then [] else Repeat(a, n - 1) + [a]
  }

  /** The adds the loop dispatches for a list, in order: `item.quantity` adds of
      each item's payload. */
  function AddActions(items: seq<CartItem>): seq<Action>
  {
    if items == [] then []
    else
      var last := items[|items| - 1];
      AddActions(items[..|items| - 1]) + Repeat(AddToCartAction(Payload(last)), last.quantity)
  }

  /** The list after `n` adds of the same payload. */
  function AddN(acc: seq<CartItem>, r: AddToCartRequest, n: int): seq<CartItem>
    decreases n
  {
    if n <= 0 then acc else AddToItems(AddN(acc, r, n - 1), r)
  }

  /** The store's items after the clear and every add the loop dispatches. */
  function Replay(items: seq<CartItem>): seq<CartItem>
  {
    if items == [] then []
    else
      var last := items[|items| - 1];
      AddN(Replay(items[..|items| - 1]), Payload(last), last.quantity)
  }

  /** The `cart-updated` event a save of `items` dispatches. */
  function Snapshot(items: seq<CartItem>): CartEvent
  {
    CartUpdated(items, TotalQuantity(items))
  }

  /** The events `n` adds of the same payload dispatch in a browser: one per add,
      each carrying the list as that add left it. */
  function AddNEvents(acc: seq<CartItem>, r: AddToCartRequest, n: int): seq<CartEvent>
    decreases n
  {
    if n <= 0 then [] else AddNEvents(acc, r, n - 1) + [Snapshot(AddN(acc, r, n))]
  }

  /** The events the adds of the whole list dispatch, in order. */
  function ReplayEvents(items: seq<CartItem>): seq<CartEvent>
  {
    if items == [] then []
    else
      var last := items[|items| - 1];
      ReplayEvents(items[..|items| - 1]) + AddNEvents(Replay(items[..|items| - 1]), Payload(last), last.quantity)
  }

  /** The loader's effect: with no `data` parameter (or an empty one) it only reads
      local storage for logging; an undecodable value is caught before anything is
      dispatched; a value that is not an array is caught after the clear; a list is
      replayed completely. The returned sequence is every dispatched action. In a
      browser every reducer call saves: the clear stores `[]` and dispatches one
      event, and each add stores the list it made and dispatches one event. */
  method LoadCartFromUrl(data: Option<string>, decode: string -> Decoded, store: CartStore)
    returns (dispatched: seq<Action>)
    requires store.Valid()
    modifies store, store.window
    ensures store.Valid()
    ensures data.None? || data == Some("") || decode(data.value).Undecodable? ==>
      && dispatched == []
      && store.items == old(store.items)
      && store.window.storage == old(store.window.storage)
      && store.window.events == old(store.window.events)
    ensures data.Some? && data != Some("") && !decode(data.value).Undecodable? && !store.window.isBrowser ==>
      store.window.storage == old(store.window.storage) && store.window.events == old(store.window.events)
    ensures data.Some? && data != Some("") && decode(data.value).NotAList? ==>
      && dispatched == [ClearCartAction] && store.items == []
      && (store.window.isBrowser ==>
            && store.window.storage == Items([])
            && store.window.events == old(store.window.events) + [Snapshot([])])
    ensures data.Some? && data != Some("") && decode(data.value).ItemList? ==>
      var items := decode(data.value).items;
      && dispatched == [ClearCartAction] + AddActions(items)
      && store.items == Replay(items)
      && (store.window.isBrowser ==>
            && store.window.storage == Items(Replay(items))
            && store.window.events == old(store.window.events) + [Snapshot([])] + ReplayEvents(items))
    ensures store.loading == old(store.loading)
    ensures !(data.Some? && data != Some("") && decode(data.value).ItemList?) ==> store.error == old(store.error)
    ensures data.Some? && data != Some("") && decode(data.value).ItemList? ==>
      store.error == if PositiveTotal(decode(data.value).items) > 0 then None else old(store.error)
  {
    dispatched := [];
    if data.None? || data.value == "" {
      return;
    }
    var decoded := decode(data.value);
    if decoded.Undecodable? {
      return;
    }
    store.ClearCart();
    dispatched := [ClearCartAction];
    if decoded.NotAList? {
      return;
    }
    var adds := AddItems(store, decoded.items);
    dispatched := dispatched + adds;
  }

  /** What the first `k` items have done: the store holds their replay and, in a
      browser, local storage holds the same list and every add so far has dispatched
      its event; outside one, storage and events are as they were. */
  ghost predicate ReplayedSoFar(store: CartStore, items: seq<CartItem>, k: nat,
                                storage0: Blob, events0: seq<CartEvent>)
    requires k <= |items|
    reads store, store.window
  {
    && store.items == Replay(items[..k])
    && (store.window.isBrowser ==>
          store.window.storage == Items(store.items) && store.window.events == events0 + ReplayEvents(items[..k]))
    && (!store.window.isBrowser ==> store.window.storage == storage0 && store.window.events == events0)
  }

  /** The three replay functions take one more item by its own adds. */
  lemma ReplayStep(items: seq<CartItem>, k: nat)
    requires k < |items|
    ensures Replay(items[..k + 1]) == AddN(Replay(items[..k]), Payload(items[k]), items[k].quantity)
    ensures ReplayEvents(items[..k + 1])
      == ReplayEvents(items[..k]) + AddNEvents(Replay(items[..k]), Payload(items[k]), items[k].quantity)
    ensures AddActions(items[..k + 1]) == AddActions(items[..k]) + Repeat(AddToCartAction(Payload(items[k])), items[k].quantity)
  {
    assert items[..k + 1][..k] == items[..k];
  }

  /** One pass of the outer loop: the adds of item `k`. */
  method AddItem(store: CartStore, items: seq<CartItem>, k: nat, ghost storage0: Blob, ghost events0: seq<CartEvent>)
    returns (more: seq<Action>)
    requires k < |items|
    requires store.Valid() && ReplayedSoFar(store, items, k, storage0, events0)
    modifies store, store.window
    ensures store.Valid() && ReplayedSoFar(store, items, k + 1, storage0, events0)
    ensures more == Repeat(AddToCartAction(Payload(items[k])), items[k].quantity)
    ensures store.loading == old(store.loading)
    ensures store.error == if items[k].quantity > 0 then None else old(store.error)
  {
    ReplayStep(items, k);
    more := AddUnits(store, Payload(items[k]), items[k].quantity);
    AppendAssoc(events0, ReplayEvents(items[..k]), AddNEvents(Replay(items[..k]), Payload(items[k]), items[k].quantity));
  }

  /** The outer `items.forEach((item) => ...)` loop, run on the cleared store. Every
      add clears the error, so it ends cleared once any unit was added. */
  method AddItems(store: CartStore, items: seq<CartItem>) returns (adds: seq<Action>)
    requires store.Valid() && store.items == []
    requires store.window.isBrowser ==> store.window.storage == Items([])
    modifies store, store.window
    ensures store.Valid()
    ensures store.items == Replay(items)
    ensures adds == AddActions(items)
    ensures store.window.isBrowser ==>
      && store.window.storage == Items(Replay(items))
      && store.window.events == old(store.window.events) + ReplayEvents(items)
    ensures !store.window.isBrowser ==>
      store.window.storage == old(store.window.storage) && store.window.events == old(store.window.events)
    ensures store.loading == old(store.loading)
    ensures store.error == if PositiveTotal(items) > 0 then None else old(store.error)
  {
    ghost var storage0 := store.window.storage;
    ghost var events0 := store.window.events;
    ghost var loading0 := store.loading;
    ghost var error0 := store.error;
    adds := [];
    for k := 0 to |items|
      invariant store.Valid() && ReplayedSoFar(store, items, k, storage0, events0)
      invariant adds == AddActions(items[..k])
      invariant store.loading == loading0
      invariant store.error == if PositiveTotal(items[..k]) > 0 then None else error0
    {
      ReplayStep(items, k);
      assert items[..k + 1][..k] == items[..k];
      var more := AddItem(store, items, k, storage0, events0);
      adds := adds + more;
    }
    assert items[..|items|] == items;
  }

  /** One more add appends one event carrying the list that add produced. */
  lemma AddNEventsStep(acc: seq<CartItem>, r: AddToCartRequest, n: nat)
    ensures AddNEvents(acc, r, n + 1) == AddNEvents(acc, r, n) + [Snapshot(AddN(acc, r, n + 1))]
  {
  }

  /** One more add applies the payload once more. */
  lemma AddNStep(acc: seq<CartItem>, r: AddToCartRequest, n: nat)
    ensures AddN(acc, r, n + 1) == AddToItems(AddN(acc, r, n), r)
  {
  }

  lemma AppendAssoc(a: seq<CartEvent>, b: seq<CartEvent>, c: seq<CartEvent>)
    ensures (a + b) + c == a + (b + c)
  {
  }

  /** What `i` adds of the payload have done so far: the store holds `AddN(start, req, i)`
      and, in a browser, local storage holds the same list and each add has dispatched
      its event; outside one, storage and events are as they were. */
  ghost predicate AddedSoFar(store: CartStore, start: seq<CartItem>, req: AddToCartRequest, i: nat,
                             storage0: Blob, events0: seq<CartEvent>)
    reads store, store.window
  {
    && store.Valid()
    && store.items == AddN(start, req, i)
    && (store.window.isBrowser ==>
          store.window.storage == Items(store.items) && store.window.events == events0 + AddNEvents(start, req, i))
    && (!store.window.isBrowser ==> store.window.storage == storage0 && store.window.events == events0)
  }

  /** One pass of the inner `for (let i = 0; i < item.quantity; i++)` loop: one
      `addToCart` dispatch. */
  method AddOnce(store: CartStore, req: AddToCartRequest, ghost start: seq<CartItem>, ghost i: nat,
                 ghost storage0: Blob, ghost events0: seq<CartEvent>)
    requires AddedSoFar(store, start, req, i, storage0, events0)
    modifies store, store.window
    ensures AddedSoFar(store, start, req, i + 1, storage0, events0)
    ensures store.loading == old(store.loading) && store.error == None
  {
    AddNStep(start, req, i);
    AddNEventsStep(start, req, i);
    store.AddToCart(req);
    AppendAssoc(events0, AddNEvents(start, req, i), [Snapshot(store.items)]);
  }

  /** The inner `for (let i = 0; i < item.quantity; i++)` loop: one add of the
      payload per unit, none when the quantity is zero or less. The loop runs up to
      the quantity clamped at zero, which is the same number of passes. In a
      browser each add stores the current list and dispatches its event,
      and each add clears the error. */
  method AddUnits(store: CartStore, req: AddToCartRequest, quantity: int) returns (adds: seq<Action>)
    requires store.Valid()
    requires store.window.isBrowser ==> store.window.storage == Items(store.items)
    modifies store, store.window
    ensures store.Valid()
    ensures store.items == AddN(old(store.items), req, quantity)
    ensures adds == Repeat(AddToCartAction(req), quantity)
    ensures store.window.isBrowser ==>
      store.window.storage == Items(store.items)
      && store.window.events == old(store.window.events) + AddNEvents(old(store.items), req, quantity)
    ensures !store.window.isBrowser ==>
      store.window.storage == old(store.window.storage) && store.window.events == old(store.window.events)
    ensures store.loading == old(store.loading)
    ensures store.error == if quantity > 0 then None else old(store.error)
  {
    ghost var start := store.items;
    ghost var events0 := store.window.events;
    ghost var storage0 := store.window.storage;
    ghost var loading0 := store.loading;
    ghost var error0 := store.error;
    adds := [];
    var passes := if quantity > 0 then quantity else 0;
    for i := 0 to passes
      invariant AddedSoFar(store, start, req, i, storage0, events0)
      invariant adds == Repeat(AddToCartAction(req), i)
      invariant store.loading == loading0
      invariant store.error == if i > 0 then None else error0
    {
      AddOnce(store, req, start, i, storage0, events0);
      adds := adds + [AddToCartAction(req)];
    }
  }

  // ---------------------------------------------------------------- replay properties

  /** Adding a new product `n >= 1` times makes one appended line of quantity `n`. */
  lemma {:induction false} AddNNew(acc: seq<CartItem>, r: AddToCartRequest, n: int)
    requires r.id !in Ids(acc) && n >= 1
    ensures AddN(acc, r, n) == acc + [NewLine(r).(quantity := n)]
    decreases n
  {
    if n > 1 {
      AddNNew(acc, r, n - 1);
      var prev := acc + [NewLine(r).(quantity := n - 1)];
      IdsAppend(acc, [NewLine(r).(quantity := n - 1)]);
      assert Ids([NewLine(r).(quantity := n - 1)]) == {r.id};
      var f := FindIndex(prev, r.id);
      if f.value < |acc| {
        IdsAt(acc, f.value);
      }
    }
  }

  /** `n` adds put `max(n, 0)` units on the payload's id and none on any other. */
  lemma {:induction false} AddNQuantityOf(acc: seq<CartItem>, r: AddToCartRequest, n: int, id: int)
    ensures QuantityOf(AddN(acc, r, n), id)
         == QuantityOf(acc, id) + (if r.id == id && n > 0 then n else 0)
    decreases n
  {
    if n > 0 {
      AddNQuantityOf(acc, r, n - 1, id);
      AddToItemsQuantityOf(AddN(acc, r, n - 1), r, id);
    }
  }

  /** `n >= 1` adds put the payload's id in the list; no add leaves it as it was. */
  lemma {:induction false} AddNIds(acc: seq<CartItem>, r: AddToCartRequest, n: int)
    ensures Ids(AddN(acc, r, n)) == if n > 0 then Ids(acc) + {r.id} else Ids(acc)
    ensures TotalQuantity(AddN(acc, r, n)) == TotalQuantity(acc) + (if n > 0 then n else 0)
    decreases n
  {
    if n > 0 {
      AddNIds(acc, r, n - 1);
      AddToItemsTotals(AddN(acc, r, n - 1), r);
    }
  }

  /** Adds keep ids unique and quantities positive. */
  lemma {:induction false} AddNKeeps(acc: seq<CartItem>, r: AddToCartRequest, n: int)
    requires IdsUnique(acc) && AllPositive(acc)
    ensures IdsUnique(AddN(acc, r, n)) && AllPositive(AddN(acc, r, n))
    decreases n
  {
    if n > 0 {
      AddNKeeps(acc, r, n - 1);
      AddToItemsKeepsUnique(AddN(acc, r, n - 1), r);
      AddToItemsKeepsPositive(AddN(acc, r, n - 1), r);
    }
  }

  /** A list with distinct ids and every quantity at least 1 is reconstructed
      exactly: same lines, same order, same quantities. */
  lemma {:induction false} ReplayReconstructs(items: seq<CartItem>)
    requires IdsUnique(items) && AllPositive(items)
    ensures Replay(items) == items
  {
    if items != [] {
      var init := items[..|items| - 1];
      var last := items[|items| - 1];
      PrefixKeeps(items);
      ReplayReconstructs(init);
      LastIdFresh(items);
      AddNNew(init, Payload(last), last.quantity);
      LastLine(items);
    }
  }

  /** The line an item list ends with is the one `n` adds of its payload make. */
  lemma LastLine(items: seq<CartItem>)
    requires items != []
    ensures var last := items[|items| - 1];
      items == items[..|items| - 1] + [NewLine(Payload(last)).(quantity := last.quantity)]
  {
    var last := items[|items| - 1];
    assert NewLine(Payload(last)).(quantity := last.quantity) == last;
    assert items == items[..|items| - 1] + [last];
  }

  lemma PrefixKeeps(items: seq<CartItem>)
    requires items != [] && IdsUnique(items) && AllPositive(items)
    ensures IdsUnique(items[..|items| - 1]) && AllPositive(items[..|items| - 1])
  {
  }

  /** In a list with distinct ids, the last line's id occurs in no earlier line. */
  lemma LastIdFresh(items: seq<CartItem>)
    requires items != [] && IdsUnique(items)
    ensures items[|items| - 1].id !in Ids(items[..|items| - 1])
  {
    var init := items[..|items| - 1];
    if items[|items| - 1].id in Ids(init) {
      var k := IdsWitness(init, items[|items| - 1].id);
    }
  }

  /** The number of units with quantity at least 1, summed over the list: the count
      of adds the loop dispatches. */
  function PositiveTotal(items: seq<CartItem>): nat
  {
    if items == [] then 0
    else
      var q := items[|items| - 1].quantity;
      PositiveTotal(items[..|items| - 1]) + (if q > 0 then q else 0)
  }

  /** The units the list holds for one id, counting only positive quantities. */
  function PositiveQuantityOf(items: seq<CartItem>, id: int): nat
  {
    if items == [] then 0
    else
      var last := items[|items| - 1];
      PositiveQuantityOf(items[..|items| - 1], id) + (if last.id == id && last.quantity > 0 then last.quantity else 0)
  }

  /** The ids with at least one line of positive quantity. */
  function PositiveIds(items: seq<CartItem>): set<int>
  {
    if items == [] then {}
    else
      var last := items[|items| - 1];
      PositiveIds(items[..|items| - 1]) + (if last.quantity > 0 then {last.id} else {})
  }

  /** The loop dispatches exactly as many adds as there are positive units, and the
      replayed cart's total quantity is that number. */
  lemma {:induction false} ReplayCounts(items: seq<CartItem>)
    ensures |AddActions(items)| == PositiveTotal(items)
    ensures TotalQuantity(Replay(items)) == PositiveTotal(items)
  {
    if items != [] {
      var init := items[..|items| - 1];
      var last := items[|items| - 1];
      ReplayCounts(init);
      AddNIds(Replay(init), Payload(last), last.quantity);
    }
  }

  /** Whatever the list, the replayed cart has unique ids and positive quantities;
      its ids are those with a positive quantity somewhere in the list (lines of
      quantity zero or less vanish), and each id holds the sum of its positive
      quantities (duplicate ids merge). */
  lemma {:induction false} ReplayMerges(items: seq<CartItem>)
    ensures IdsUnique(Replay(items)) && AllPositive(Replay(items))
    ensures Ids(Replay(items)) == PositiveIds(items)
    ensures forall id :: QuantityOf(Replay(items), id) == PositiveQuantityOf(items, id)
  {
    if items != [] {
      var init := items[..|items| - 1];
      var last := items[|items| - 1];
      ReplayMerges(init);
      AddNKeeps(Replay(init), Payload(last), last.quantity);
      AddNIds(Replay(init), Payload(last), last.quantity);
      forall id | true
        ensures QuantityOf(Replay(items), id) == PositiveQuantityOf(items, id)
      {
        AddNQuantityOf(Replay(init), Payload(last), last.quantity, id);
      }
    }
  }

  // ---------------------------------------------------------------- replay order

  /** The ids of a list, position by position. */
  function IdSeq(items: seq<CartItem>): (r: seq<int>)
    ensures |r| == |items|
    ensures forall i :: 0 <= i < |items| ==> r[i] == items[i].id
  {
    seq(|items|, i requires 0 <= i < |items| => items[i].id)
  }

  /** The ids with a positive quantity, each once, in the order of the line where
      each first appears with a positive quantity. */
  function FirstPositiveIds(items: seq<CartItem>): seq<int>
  {
    if items == [] then []
    else
      var d := FirstPositiveIds(items[..|items| - 1]);
      var last := items[|items| - 1];
      if last.quantity > 0 && last.id !in d then d + [last.id] else d
  }

  lemma {:induction false} FirstPositiveIdsMembers(items: seq<CartItem>)
    ensures forall id :: id in FirstPositiveIds(items) <==> id in PositiveIds(items)
  {
    if items != [] {
      FirstPositiveIdsMembers(items[..|items| - 1]);
    }
  }

  /** Adds of an id already present change no line's id and add no line. */
  lemma {:induction false} AddNExisting(acc: seq<CartItem>, r: AddToCartRequest, n: int)
    requires r.id in Ids(acc)
    ensures IdSeq(AddN(acc, r, n)) == IdSeq(acc)
    decreases n
  {
    if n > 0 {
      var prev := AddN(acc, r, n - 1);
      AddNExisting(acc, r, n - 1);
      AddNIds(acc, r, n - 1);
      AddToItemsExisting(prev, r);
      assert |IdSeq(prev)| == |IdSeq(acc)|;
    }
  }

  /** The replayed cart lists its lines in the order their ids first appear with a
      positive quantity: a later line with the same id merges into the earlier one. */
  lemma {:induction false} ReplayOrder(items: seq<CartItem>)
    ensures IdSeq(Replay(items)) == FirstPositiveIds(items)
  {
    if items != [] {
      var init := items[..|items| - 1];
      var last := items[|items| - 1];
      var acc := Replay(init);
      ReplayOrder(init);
      ReplayMerges(init);
      FirstPositiveIdsMembers(init);
      if last.quantity > 0 {
        if last.id in Ids(acc) {
          AddNExisting(acc, Payload(last), last.quantity);
        } else {
          AddNNew(acc, Payload(last), last.quantity);
          assert IdSeq(acc + [NewLine(Payload(last)).(quantity := last.quantity)]) == IdSeq(acc) + [last.id];
        }
      }
    }
  }
}
