/** The cart line-item record shared by the cart store, the home-side hook and the
    URL replay, and the list operations the store's reducers are specified by. */
module CartTypes {
  import opened Js

  /** One product in the cart. `quantity` is whatever number the code stored;
      nothing in the record itself forces it to be positive. */
  datatype CartItem = CartItem(
    id: int,
    name: string,
    category: Option<string>,
    price: string,
    quantity: int,
    imageUrl: Option<string>)

  /** The payload of an add: a cart item without its quantity. */
  datatype AddToCartRequest = AddToCartRequest(
    id: int,
    name: string,
    category: Option<string>,
    price: string,
    imageUrl: Option<string>)

  /** `{ ...newItem, quantity: 1 }`. */
  function NewLine(r: AddToCartRequest): CartItem
  {
    CartItem(r.id, r.name, r.category, r.price, 1, r.imageUrl)
  }

  /** `items.reduce((sum, item) => sum + item.quantity, 0)`. */
  function TotalQuantity(items: seq<CartItem>): int
  {
    if items == [] then 0 else items[0].quantity + TotalQuantity(items[1..])
  }

  /** The summed quantity of the lines carrying `id`. */
  function QuantityOf(items: seq<CartItem>, id: int): int
  {
    if items == [] then 0
    else (if items[0].id == id then items[0].quantity else 0) + QuantityOf(items[1..], id)
  }

  /** The ids present in the list. */
  function Ids(items: seq<CartItem>): set<int>
  {
    if items == [] then {} else {items[0].id} + Ids(items[1..])
  }

  predicate IdsUnique(items: seq<CartItem>)
  {
    forall i, j :: 0 <= i < j < |items| ==> items[i].id != items[j].id
  }

  predicate AllPositive(items: seq<CartItem>)
  {
    forall i :: 0 <= i < |items| ==> items[i].quantity >= 1
  }

  /** `items.find(item => item.id === id)`, as the index of the line it finds. */
  function FindIndex(items: seq<CartItem>, id: int): (r: Option<nat>)
    ensures r.Some? ==> r.value < |items| && items[r.value].id == id
    ensures r.Some? ==> forall j :: 0 <= j < r.value ==> items[j].id != id
    ensures r.None? <==> id !in Ids(items)
  {
    if items == [] then None
    else if items[0].id == id then Some(0)
    else
      var k := FindIndex(items[1..], id);
      if k.Some? then Some(k.value + 1) else None
  }

  /** The increment-or-append rule: the first line with the request's id gains one
      unit; without such a line, a line of quantity 1 is appended at the end. */
  function AddToItems(items: seq<CartItem>, r: AddToCartRequest): seq<CartItem>
  {
    match FindIndex(items, r.id)
    case Some(i) => items[i := items[i].(quantity := items[i].quantity + 1)]
    case None => items + [NewLine(r)]
  }

  /** `items.filter(item => item.id !== id)`. */
  function RemoveId(items: seq<CartItem>, id: int): (r: seq<CartItem>)
    ensures |r| <= |items|
    ensures forall x :: x in r <==> x in items && x.id != id
  {
    if items == [] then []
    else if items[0].id == id then RemoveId(items[1..], id)
    else [items[0]] + RemoveId(items[1..], id)
  }

  /** The effect of `updateQuantity` on the item list: an absent id changes nothing,
      a quantity of zero or less removes the id, any other quantity replaces the
      found line's quantity. */
  function UpdateItems(items: seq<CartItem>, id: int, quantity: int): seq<CartItem>
  {
    match FindIndex(items, id)
    case None => items
    case Some(i) =>
      if quantity <= 0 then RemoveId(items, id)
      else items[i := items[i].(quantity := quantity)]
  }

  // ---------------------------------------------------------------- totals

  lemma {:induction false} TotalQuantityAppend(a: seq<CartItem>, b: seq<CartItem>)
    ensures TotalQuantity(a + b) == TotalQuantity(a) + TotalQuantity(b)
  {
    if a != [] {
      assert (a + b)[0] == a[0] && (a + b)[1..] == a[1..] + b;
      TotalQuantityAppend(a[1..], b);
    } else {
      assert a + b == b;
    }
  }

  /** Replacing one line's quantity moves the total by the difference. */
  lemma {:induction false} TotalQuantitySet(items: seq<CartItem>, i: nat, q: int)
    requires i < |items|
    ensures TotalQuantity(items[i := items[i].(quantity := q)])
         == TotalQuantity(items) - items[i].quantity + q
  {
    if i > 0 {
      assert items[i := items[i].(quantity := q)][1..] == items[1..][i - 1 := items[i].(quantity := q)];
      TotalQuantitySet(items[1..], i - 1, q);
    }
  }

  /** Filtering an id out takes exactly that id's units out of the total. */
  lemma {:induction false} TotalQuantityRemove(items: seq<CartItem>, id: int)
    ensures TotalQuantity(RemoveId(items, id)) == TotalQuantity(items) - QuantityOf(items, id)
  {
    if items != [] {
      TotalQuantityRemove(items[1..], id);
    }
  }

  lemma {:induction false} QuantityOfAbsent(items: seq<CartItem>, id: int)
    requires id !in Ids(items)
    ensures QuantityOf(items, id) == 0
  {
    if items != [] {
      QuantityOfAbsent(items[1..], id);
    }
  }

  lemma {:induction false} QuantityOfAppend(a: seq<CartItem>, b: seq<CartItem>, id: int)
    ensures QuantityOf(a + b, id) == QuantityOf(a, id) + QuantityOf(b, id)
  {
    if a != [] {
      assert (a + b)[0] == a[0] && (a + b)[1..] == a[1..] + b;
      QuantityOfAppend(a[1..], b, id);
    } else {
      assert a + b == b;
    }
  }

  lemma {:induction false} QuantityOfSet(items: seq<CartItem>, i: nat, q: int, id: int)
    requires i < |items|
    ensures QuantityOf(items[i := items[i].(quantity := q)], id)
         == QuantityOf(items, id) + (if items[i].id == id then q - items[i].quantity else 0)
  {
    if i > 0 {
      assert items[i := items[i].(quantity := q)][1..] == items[1..][i - 1 := items[i].(quantity := q)];
      QuantityOfSet(items[1..], i - 1, q, id);
    }
  }

  // ---------------------------------------------------------------- ids

  lemma {:induction false} IdsAt(items: seq<CartItem>, k: nat)
    requires k < |items|
    ensures items[k].id in Ids(items)
  {
    if k > 0 {
      IdsAt(items[1..], k - 1);
    }
  }

  lemma {:induction false} IdsWitness(items: seq<CartItem>, x: int) returns (k: nat)
    requires x in Ids(items)
    ensures k < |items| && items[k].id == x
  {
    if items[0].id == x {
      k := 0;
    } else {
      k := IdsWitness(items[1..], x);
      k := k + 1;
    }
  }

  /** Two lists with the same id at every position have the same id set. */
  lemma {:induction false} IdsSamePositions(a: seq<CartItem>, b: seq<CartItem>)
    requires |a| == |b| && forall j :: 0 <= j < |a| ==> a[j].id == b[j].id
    ensures Ids(a) == Ids(b)
  {
    if a != [] {
      IdsSamePositions(a[1..], b[1..]);
    }
  }

  lemma {:induction false} IdsAppend(a: seq<CartItem>, b: seq<CartItem>)
    ensures Ids(a + b) == Ids(a) + Ids(b)
  {
    if a != [] {
      assert (a + b)[0] == a[0] && (a + b)[1..] == a[1..] + b;
      IdsAppend(a[1..], b);
    } else {
      assert a + b == b;
    }
  }

  // ---------------------------------------------------------------- add

  /** An add for an id already present keeps length, order and every other line,
      and gives that id exactly one more unit. */
  lemma AddToItemsExisting(items: seq<CartItem>, r: AddToCartRequest)
    requires r.id in Ids(items)
    ensures |AddToItems(items, r)| == |items|
    ensures forall j :: 0 <= j < |items| ==> AddToItems(items, r)[j].id == items[j].id
    ensures forall j :: 0 <= j < |items| && items[j].id != r.id ==> AddToItems(items, r)[j] == items[j]
    ensures QuantityOf(AddToItems(items, r), r.id) == QuantityOf(items, r.id) + 1
  {
    var f := FindIndex(items, r.id);
    assert f.Some?;
    var i := f.value;
    var res := items[i := items[i].(quantity := items[i].quantity + 1)];
    assert AddToItems(items, r) == res;
    QuantityOfSet(items, i, items[i].quantity + 1, r.id);
  }

  /** An add for a new id appends `{...payload, quantity: 1}` at the end. */
  lemma AddToItemsNew(items: seq<CartItem>, r: AddToCartRequest)
    requires r.id !in Ids(items)
    ensures AddToItems(items, r) == items + [NewLine(r)]
  {
  }

  /** Every add puts the id in the list and adds exactly one unit to the total. */
  lemma AddToItemsTotals(items: seq<CartItem>, r: AddToCartRequest)
    ensures Ids(AddToItems(items, r)) == Ids(items) + {r.id}
    ensures TotalQuantity(AddToItems(items, r)) == TotalQuantity(items) + 1
  {
    AddToItemsIds(items, r);
    AddToItemsTotal(items, r);
  }

  lemma AddToItemsIds(items: seq<CartItem>, r: AddToCartRequest)
    ensures Ids(AddToItems(items, r)) == Ids(items) + {r.id}
  {
    match FindIndex(items, r.id)
    case Some(i) =>
      IdsSamePositions(AddToItems(items, r), items);
    case None =>
      IdsAppend(items, [NewLine(r)]);
      assert Ids([NewLine(r)]) == {r.id};
  }

  lemma AddToItemsTotal(items: seq<CartItem>, r: AddToCartRequest)
    ensures TotalQuantity(AddToItems(items, r)) == TotalQuantity(items) + 1
  {
    match FindIndex(items, r.id)
    case Some(i) =>
      TotalQuantitySet(items, i, items[i].quantity + 1);
    case None =>
      TotalQuantityAppend(items, [NewLine(r)]);
  }

  /** An add gives the request's id exactly one more unit and leaves every other
      id's quantity alone. */
  lemma AddToItemsQuantityOf(items: seq<CartItem>, r: AddToCartRequest, id: int)
    ensures QuantityOf(AddToItems(items, r), id) == QuantityOf(items, id) + (if r.id == id then 1 else 0)
  {
    match FindIndex(items, r.id)
    case Some(i) =>
      QuantityOfSet(items, i, items[i].quantity + 1, id);
    case None =>
      QuantityOfAppend(items, [NewLine(r)], id);
  }

  /** The increment-or-append rule stated by walking the list: the first line with
      the id gains a unit and the walk stops; reaching the end appends a new line. */
  function IncrementOrAppend(items: seq<CartItem>, r: AddToCartRequest): seq<CartItem>
  {
    if items == [] then [NewLine(r)]
    else if items[0].id == r.id then [items[0].(quantity := items[0].quantity + 1)] + items[1..]
    else [items[0]] + IncrementOrAppend(items[1..], r)
  }

  /** The index-based rule both add implementations use is the walk above. */
  lemma {:induction false} AddToItemsIsIncrementOrAppend(items: seq<CartItem>, r: AddToCartRequest)
    ensures AddToItems(items, r) == IncrementOrAppend(items, r)
  {
    if items != [] && items[0].id != r.id {
      AddToItemsIsIncrementOrAppend(items[1..], r);
      match FindIndex(items[1..], r.id)
      case Some(k) =>
        assert items[k + 1 := items[k + 1].(quantity := items[k + 1].quantity + 1)]
            == [items[0]] + items[1..][k := items[1..][k].(quantity := items[1..][k].quantity + 1)];
      case None =>
        assert items + [NewLine(r)] == [items[0]] + (items[1..] + [NewLine(r)]);
    }
  }

  /** Adding never breaks uniqueness of ids. */
  lemma AddToItemsKeepsUnique(items: seq<CartItem>, r: AddToCartRequest)
    requires IdsUnique(items)
    ensures IdsUnique(AddToItems(items, r))
  {
    var res := AddToItems(items, r);
    if r.id !in Ids(items) {
      forall i, j | 0 <= i < j < |res| ensures res[i].id != res[j].id {
        if j == |items| {
          IdsAt(items, i);
        }
      }
    }
  }

  /** If every line had at least one unit before an add, every line has after. */
  lemma AddToItemsKeepsPositive(items: seq<CartItem>, r: AddToCartRequest)
    requires AllPositive(items)
    ensures AllPositive(AddToItems(items, r))
  {
  }

  /** Two adds of the same new product make one line of quantity 2, not two lines. */
  lemma AddTwiceMerges(items: seq<CartItem>, r: AddToCartRequest)
    requires r.id !in Ids(items)
    ensures AddToItems(AddToItems(items, r), r) == items + [NewLine(r).(quantity := 2)]
  {
    var once := AddToItems(items, r);
    assert once == items + [NewLine(r)];
    var k := FindIndex(once, r.id);
    IdsAppend(items, [NewLine(r)]);
    assert k.Some?;
    if k.value < |items| {
      IdsAt(items, k.value);
    }
  }

  // ---------------------------------------------------------------- remove

  /** Removing keeps every other id and drops the removed one, and an absent id
      leaves the list as it was. */
  lemma {:induction false} RemoveIdIds(items: seq<CartItem>, id: int)
    ensures Ids(RemoveId(items, id)) == Ids(items) - {id}
    ensures id !in Ids(items) ==> RemoveId(items, id) == items
  {
    if items != [] {
      RemoveIdIds(items[1..], id);
      if items[0].id != id {
        var tail := RemoveId(items[1..], id);
        assert ([items[0]] + tail)[1..] == tail;
      }
    }
  }

  /** Removing works line by line: on a concatenation it removes from each part,
      so the kept lines stay in their order. */
  lemma {:induction false} RemoveIdAppend(a: seq<CartItem>, b: seq<CartItem>, id: int)
    ensures RemoveId(a + b, id) == RemoveId(a, id) + RemoveId(b, id)
  {
    if a != [] {
      assert (a + b)[0] == a[0] && (a + b)[1..] == a[1..] + b;
      RemoveIdAppend(a[1..], b, id);
    } else {
      assert a + b == b;
    }
  }

  /** On one line, removing drops it exactly when it carries the id. */
  lemma RemoveIdSingle(x: CartItem, id: int)
    ensures RemoveId([x], id) == if x.id == id then [] else [x]
  {
    assert [x][1..] == [];
  }

  /** Removing twice is removing once. */
  lemma RemoveIdIdempotent(items: seq<CartItem>, id: int)
    ensures RemoveId(RemoveId(items, id), id) == RemoveId(items, id)
  {
    RemoveIdIds(items, id);
    RemoveIdIds(RemoveId(items, id), id);
  }

  /** Removing keeps every line positive and ids unique when they were. */
  lemma RemoveIdKeeps(items: seq<CartItem>, id: int)
    ensures AllPositive(items) ==> AllPositive(RemoveId(items, id))
    ensures IdsUnique(items) ==> IdsUnique(RemoveId(items, id))
  {
    var res := RemoveId(items, id);
    if AllPositive(items) {
      forall i | 0 <= i < |res| ensures res[i].quantity >= 1 {
        assert res[i] in items;
      }
    }
    if IdsUnique(items) {
      RemoveIdUnique(items, id);
    }
  }

  lemma {:induction false} RemoveIdUnique(items: seq<CartItem>, id: int)
    requires IdsUnique(items)
    ensures IdsUnique(RemoveId(items, id))
  {
    if items != [] {
      assert IdsUnique(items[1..]);
      RemoveIdUnique(items[1..], id);
      var tail := RemoveId(items[1..], id);
      if items[0].id != id {
        var res := [items[0]] + tail;
        RemoveIdIds(items[1..], id);
        forall j | 0 < j < |res| ensures res[0].id != res[j].id {
          assert res[j] == tail[j - 1];
          IdsAt(tail, j - 1);
          var k := IdsWitness(items[1..], res[j].id);
          assert items[k + 1].id == res[j].id;
        }
      }
    }
  }

  // ---------------------------------------------------------------- update

  /** What `updateQuantity` does to the list: an absent id changes nothing; a
      quantity of zero or less removes the id; otherwise the line's quantity is set
      (not incremented; `UpdateItemsSetsFirst` says which line). Lines with other
      ids are kept, and all lines stay positive. */
  lemma UpdateItemsEffect(items: seq<CartItem>, id: int, quantity: int)
    ensures id !in Ids(items) ==> UpdateItems(items, id, quantity) == items
    ensures id in Ids(items) && quantity <= 0 ==> UpdateItems(items, id, quantity) == RemoveId(items, id)
    ensures id in Ids(items) && quantity > 0 ==>
      var res := UpdateItems(items, id, quantity);
      && |res| == |items|
      && (forall j :: 0 <= j < |items| && items[j].id != id ==> res[j] == items[j])
      && (forall j :: 0 <= j < |items| ==> res[j].id == items[j].id)
      && (IdsUnique(items) ==> QuantityOf(res, id) == quantity)
    ensures AllPositive(items) ==> AllPositive(UpdateItems(items, id, quantity))
    ensures IdsUnique(items) ==> IdsUnique(UpdateItems(items, id, quantity))
  {
    RemoveIdKeeps(items, id);
    match FindIndex(items, id)
    case None =>
    case Some(i) =>
      if quantity > 0 && IdsUnique(items) {
        QuantityOfSet(items, i, quantity, id);
        QuantityOfSingle(items, i);
      }
  }

  /** A positive quantity is set on the first line with the id and nowhere else:
      that line keeps its name, category, price and image, and every other line,
      including a later one with the same id, is unchanged. */
  lemma UpdateItemsSetsFirst(items: seq<CartItem>, id: int, quantity: int, k: nat)
    requires k < |items| && items[k].id == id && quantity > 0
    requires forall j :: 0 <= j < k ==> items[j].id != id
    ensures UpdateItems(items, id, quantity) == items[k := items[k].(quantity := quantity)]
  {
    IdsAt(items, k);
    var f := FindIndex(items, id);
    assert f.Some?;
    assert f.value == k;
  }

  /** With unique ids, the quantity of an id is that of its one line. */
  lemma {:induction false} QuantityOfSingle(items: seq<CartItem>, i: nat)
    requires IdsUnique(items) && i < |items|
    ensures QuantityOf(items, items[i].id) == items[i].quantity
  {
    if i == 0 {
      if items[0].id in Ids(items[1..]) {
        var k := IdsWitness(items[1..], items[0].id);
      }
      QuantityOfAbsent(items[1..], items[0].id);
    } else {
      assert items[1..][i - 1] == items[i];
      QuantityOfSingle(items[1..], i - 1);
    }
  }
}
