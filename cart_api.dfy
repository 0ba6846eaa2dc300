/** The cart application's in-memory `/api/cart` route: a module-level item array,
    a GET that returns it and a POST that validates a product and merges it in. */
module CartApi {
  import opened Js

  /** An entry of the route's `cartItems` array: every own field of the posted
      object except `quantity` (the spread `{ ...item, quantity: 1 }` copies them
      all), and the quantity the route keeps. */
  datatype ApiItem = ApiItem(fields: map<string, Json>, quantity: int)
  {
    /** `cartItem.id`, `undefined` when the posted object had no id. */
    function Id(): Option<Json>
    {
      if "id" in fields then Some(fields["id"]) else None
    }
  }

  /** The request body: text `request.json()` rejects, or the value it parsed. */
  datatype PostBody = Unparseable | Parsed(value: Json)

  datatype ResponseBody =
    | CartList(items: seq<ApiItem>)
    | Added(message: string, cart: seq<ApiItem>)
    | Failure(error: string)

  datatype Response = Response(status: int, body: ResponseBody)

  const RequiredMessage: string := "Ürün adı ve fiyatı zorunludur."
  const InvalidMessage: string := "Geçersiz istek."
  const AddedMessage: string := "Ürün sepete eklendi."

  /** `!item.name || !item.price` throws for a `null` body: `null.name` is a
      TypeError, caught as an invalid request. */
  predicate Throws(b: PostBody)
  {
    b.Unparseable? || b.value.JNull?
  }

  /** The body passes the route's validation: a truthy name and a truthy price. */
  predicate Accepted(b: PostBody)
  {
    !Throws(b) && Truthy(Field(b.value, "name")) && Truthy(Field(b.value, "price"))
  }

  /** `item.id` of an accepted body. */
  function BodyId(b: PostBody): Option<Json>
    requires Accepted(b)
  {
    Field(b.value, "id")
  }

  /** `cartItems.find((cartItem) => cartItem.id === item.id)`, as an index: the
      first line whose id is `===` to the request's, None when there is none. */
  function FindApiIndex(items: seq<ApiItem>, id: Option<Json>): (r: Option<nat>)
    ensures r.Some? ==> r.value < |items| && StrictEquals(items[r.value].Id(), id)
    ensures r.Some? ==> forall j :: 0 <= j < r.value ==> !StrictEquals(items[j].Id(), id)
    ensures r.None? <==> forall j :: 0 <= j < |items| ==> !StrictEquals(items[j].Id(), id)
  {
    if items == [] then None
    else if StrictEquals(items[0].Id(), id) then Some(0)
    else
      var k := FindApiIndex(items[1..], id);
      if k.Some? then Some(k.value + 1) else None
  }

  /** `(existingItem.quantity || 1) + 1`: a zero quantity counts as one. */
  function Bump(quantity: int): int
  {
    (if quantity != 0 then quantity else 1) + 1
  }

  /** `{ ...item, quantity: 1 }` for an accepted body. */
  function NewLine(b: PostBody): ApiItem
    requires Accepted(b)
  {
    ApiItem(b.value.fields - {"quantity"}, 1)
  }

  /** The merge a valid POST performs: an existing id is bumped, a new one is
      appended with quantity 1 whatever quantity the request carried. */
  function Merge(items: seq<ApiItem>, b: PostBody): seq<ApiItem>
    requires Accepted(b)
  {
    match FindApiIndex(items, BodyId(b))
    case Some(i) => items[i := items[i].(quantity := Bump(items[i].quantity))]
    case None => items + [NewLine(b)]
  }

  /** The route module's state. */
  class CartRoute {
    var cartItems: seq<ApiItem>

    constructor ()
      ensures cartItems == []
    {
      cartItems := [];
    }

    /** `GET /api/cart`: the whole array, unchanged. */
    method Get() returns (r: Response)
      ensures r.status == 200 && r.body == CartList(cartItems)
    {
      r := Response(200, CartList(cartItems));
    }

    /** `POST /api/cart`: 400 and no change for an unparseable or `null` body or a
      falsy name or price; otherwise merge and answer 201 with the whole cart. */
    method Post(body: PostBody) returns (r: Response)
      modifies this
      ensures Throws(body) ==> cartItems == old(cartItems) && r == Response(400, Failure(InvalidMessage))
      ensures !Throws(body) && !Accepted(body) ==>
        cartItems == old(cartItems) && r == Response(400, Failure(RequiredMessage))
      ensures Accepted(body) ==>
        cartItems == Merge(old(cartItems), body) && r == Response(201, Added(AddedMessage, cartItems))
    {
      if body.Unparseable? || body.value.JNull? {
        return Response(400, Failure(InvalidMessage));
      }
      var item := body.value;
      if !Truthy(Field(item, "name")) || !Truthy(Field(item, "price")) {
        return Response(400, Failure(RequiredMessage));
      }
      var found := FindApiIndex(cartItems, Field(item, "id"));
      if found.Some? {
        var i := found.value;
        cartItems := cartItems[i := cartItems[i].(quantity := Bump(cartItems[i].quantity))];
      } else {
        cartItems := cartItems + [ApiItem(item.fields - {"quantity"}, 1)];
      }
      r := Response(201, Added(AddedMessage, cartItems));
    }
  }

  // ---------------------------------------------------------------- validation

  /** Only an object can pass validation; a string, number, boolean or array body
      has no `name`, so it is refused with the "required" message, not caught. */
  lemma AcceptedIsObject(b: PostBody)
    ensures Accepted(b) ==> b.value.JObject?
    ensures b.Parsed? && !b.value.JObject? && !b.value.JNull? ==> !Throws(b) && !Accepted(b)
  {
  }

  /** A product posted by the home page (a non-empty name and price string) is
      accepted, while a price of `0` or `""` is refused. */
  lemma ValidationExamples(fields: map<string, Json>, name: string, price: string)
    requires name != "" && price != ""
    ensures Accepted(Parsed(JObject(fields["name" := JString(name)]["price" := JString(price)])))
    ensures !Accepted(Parsed(JObject(fields["name" := JString(name)]["price" := JNumber(0.0)])))
    ensures !Accepted(Parsed(JObject(fields["name" := JString(name)]["price" := JString("")])))
  {
  }

  // ---------------------------------------------------------------- merge properties

  /** No two lines carry `===` ids. */
  predicate ApiIdsDistinct(items: seq<ApiItem>)
  {
    forall i, j :: 0 <= i < j < |items| ==> !StrictEquals(items[i].Id(), items[j].Id())
  }

  /** A valid POST grows the cart by at most one line. When some line's id is `===`
      to the request's, the first such line gets `(old || 1) + 1`, so 0 becomes 2,
      and every other line is kept. Otherwise the body's fields are appended with
      quantity 1, whatever quantity the request carried. */
  lemma MergeEffect(items: seq<ApiItem>, b: PostBody, i: nat)
    requires Accepted(b)
    requires i < |items| && StrictEquals(items[i].Id(), BodyId(b))
    requires forall j :: 0 <= j < i ==> !StrictEquals(items[j].Id(), BodyId(b))
    ensures Merge(items, b) == items[i := items[i].(quantity := Bump(items[i].quantity))]
  {
  }

  lemma MergeAppends(items: seq<ApiItem>, b: PostBody)
    requires Accepted(b)
    requires forall j :: 0 <= j < |items| ==> !StrictEquals(items[j].Id(), BodyId(b))
    ensures var res := Merge(items, b);
      && |res| == |items| + 1 && res[..|items|] == items
      && res[|items|].quantity == 1 && "quantity" !in res[|items|].fields
      && forall k :: k in b.value.fields && k != "quantity" ==>
           k in res[|items|].fields && res[|items|].fields[k] == b.value.fields[k]
  {
  }

  /** An id that is an array or an object is never `===` to a stored one, so such a
      POST always appends, even when the same body was posted before. */
  lemma CompositeIdAppends(items: seq<ApiItem>, b: PostBody)
    requires Accepted(b) && BodyId(b).Some? && (BodyId(b).value.JArray? || BodyId(b).value.JObject?)
    ensures Merge(items, b) == items + [NewLine(b)]
  {
  }

  /** A valid POST changes the length by at most one, never introduces two `===`
      ids, and keeps quantities positive. */
  lemma MergeKeepsInvariant(items: seq<ApiItem>, b: PostBody)
    requires Accepted(b)
    ensures |items| <= |Merge(items, b)| <= |items| + 1
    ensures ApiIdsDistinct(items) ==> ApiIdsDistinct(Merge(items, b))
    ensures (forall i :: 0 <= i < |items| ==> items[i].quantity >= 1) ==>
      forall i :: 0 <= i < |Merge(items, b)| ==> Merge(items, b)[i].quantity >= 1
  {
    var res := Merge(items, b);
    if ApiIdsDistinct(items) && FindApiIndex(items, BodyId(b)).None? {
      forall i, j | 0 <= i < j < |res| ensures !StrictEquals(res[i].Id(), res[j].Id()) {
        if j == |items| {
          assert res[j].Id() == BodyId(b);
          assert !StrictEquals(items[i].Id(), BodyId(b));
        }
      }
    }
  }
}
