/** The cart application's store: the price-string cleaner, the storage helpers and
    the seven reducers of the `cart` slice. */
module CartSlice {
  import opened Js
  import opened CartTypes
  import opened Browser

  // ---------------------------------------------------------------- price strings

  /** A character the price regex keeps: a digit, `,` or `-`. */
  predicate IsPriceChar(c: char) { IsDigit(c) || c == ',' || c == '-' }

  /** `s.replace(/[^0-9,-]+/g, "")`: every other character is dropped, including `.`. */
  function KeepPriceChars(s: string): (r: string)
    ensures |r| <= |s|
    ensures forall i :: 0 <= i < |r| ==> IsPriceChar(r[i])
  {
    if s == [] then []
    else (if IsPriceChar(s[0]) then [s[0]] else []) + KeepPriceChars(s[1..])
  }

  /** `s.replace(a, b)` with a one-character string pattern: only the first
      occurrence is replaced. */
  function ReplaceFirst(s: string, a: char, b: char): (r: string)
    ensures |r| == |s|
    ensures forall i :: 0 <= i < |s| ==> r[i] == s[i] || (s[i] == a && r[i] == b)
  {
    if s == [] then []
    else if s[0] == a then [b] + s[1..]
    else [s[0]] + ReplaceFirst(s[1..], a, b)
  }

  /** The string stage of `calculatePrice`: the text `parseFloat` is applied to. */
  function CleanPrice(s: string): string
  {
    ReplaceFirst(KeepPriceChars(s), ',', '.')
  }

  /** The cleaned price holds only digits, `-`, `,` and at most one `.`; exactly one
      `,` became that `.` when the input had any `,`. */
  lemma CleanPriceShape(s: string)
    ensures var r := CleanPrice(s);
      && (forall i :: 0 <= i < |r| ==> IsPriceChar(r[i]) || r[i] == '.')
      && Count(r, '.') == (if ',' in s then 1 else 0)
      && Count(r, ',') == Count(s, ',') - (if ',' in s then 1 else 0)
  {
    KeepPriceCharsCounts(s);
    ReplaceFirstCounts(KeepPriceChars(s), ',', '.');
  }

  function Count(s: string, c: char): (n: nat)
    ensures n == 0 <==> c !in s
  {
    if s == [] then 0 else (if s[0] == c then 1 else 0) + Count(s[1..], c)
  }

  /** The digits of a string, in order. */
  function Digits(s: string): string
  {
    if s == [] then [] else (if IsDigit(s[0]) then [s[0]] else []) + Digits(s[1..])
  }

  lemma {:induction false} KeepPriceCharsCounts(s: string)
    ensures Count(KeepPriceChars(s), '.') == 0
    ensures Count(KeepPriceChars(s), ',') == Count(s, ',')
    ensures (',' in KeepPriceChars(s)) == (',' in s)
  {
    if s != [] {
      KeepPriceCharsCounts(s[1..]);
      var head := if IsPriceChar(s[0]) then [s[0]] else [];
      CountAppend(head, KeepPriceChars(s[1..]), '.');
      CountAppend(head, KeepPriceChars(s[1..]), ',');
    }
  }

  lemma {:induction false} CountAppend(a: string, b: string, c: char)
    ensures Count(a + b, c) == Count(a, c) + Count(b, c)
  {
    if a != [] {
      assert (a + b)[0] == a[0] && (a + b)[1..] == a[1..] + b;
      CountAppend(a[1..], b, c);
    } else {
      assert a + b == b;
    }
  }

  lemma {:induction false} ReplaceFirstCounts(s: string, a: char, b: char)
    requires a != b && Count(s, b) == 0
    ensures Count(ReplaceFirst(s, a, b), b) == if a in s then 1 else 0
    ensures Count(ReplaceFirst(s, a, b), a) == Count(s, a) - (if a in s then 1 else 0)
  {
    if s != [] {
      if s[0] == a {
        assert ([b] + s[1..])[1..] == s[1..];
      } else {
        assert ([s[0]] + ReplaceFirst(s[1..], a, b))[1..] == ReplaceFirst(s[1..], a, b);
        ReplaceFirstCounts(s[1..], a, b);
      }
    }
  }

  /** Turning the one `.` back into `,` gives exactly the characters the regex kept:
      the cleaner loses nothing but the characters outside `0-9 , -`. */
  lemma CleanPriceRestores(s: string)
    ensures ReplaceFirst(CleanPrice(s), '.', ',') == KeepPriceChars(s)
  {
    KeepPriceCharsCounts(s);
    ReplaceFirstInverse(KeepPriceChars(s));
  }

  lemma {:induction false} ReplaceFirstInverse(s: string)
    requires Count(s, '.') == 0
    ensures ReplaceFirst(ReplaceFirst(s, ',', '.'), '.', ',') == s
  {
    if s != [] {
      if s[0] == ',' {
        assert ReplaceFirst(s, ',', '.') == ['.'] + s[1..];
      } else {
        assert s[0] != '.';
        ReplaceFirstInverse(s[1..]);
        assert ReplaceFirst(s, ',', '.') == [s[0]] + ReplaceFirst(s[1..], ',', '.');
      }
    }
  }

  /** The cleaner keeps every digit of the price, in order, so a `.` decimal point
      is lost: the digits of `799.99` all stay, with nothing between them. */
  lemma {:induction false} CleanPriceKeepsDigits(s: string)
    ensures Digits(CleanPrice(s)) == Digits(s)
  {
    DigitsKeep(s);
    DigitsReplace(KeepPriceChars(s));
  }

  lemma {:induction false} DigitsKeep(s: string)
    ensures Digits(KeepPriceChars(s)) == Digits(s)
  {
    if s != [] {
      DigitsKeep(s[1..]);
      var head := if IsPriceChar(s[0]) then [s[0]] else [];
      DigitsAppend(head, KeepPriceChars(s[1..]));
    }
  }

  lemma {:induction false} DigitsReplace(s: string)
    ensures Digits(ReplaceFirst(s, ',', '.')) == Digits(s)
  {
    if s != [] && s[0] != ',' {
      DigitsReplace(s[1..]);
      assert ReplaceFirst(s, ',', '.')[1..] == ReplaceFirst(s[1..], ',', '.');
    } else if s != [] {
      assert ReplaceFirst(s, ',', '.')[1..] == s[1..];
    }
  }

  lemma {:induction false} DigitsAppend(a: string, b: string)
    ensures Digits(a + b) == Digits(a) + Digits(b)
  {
    if a != [] {
      assert (a + b)[0] == a[0] && (a + b)[1..] == a[1..] + b;
      DigitsAppend(a[1..], b);
    } else {
      assert a + b == b;
    }
  }

  /** The strip works character by character: stripping a concatenation strips
      each part, so every digit, `,` and `-` of the input stays, in its place
      among the others. */
  lemma {:induction false} KeepPriceCharsAppend(x: string, y: string)
    ensures KeepPriceChars(x + y) == KeepPriceChars(x) + KeepPriceChars(y)
  {
    if x != [] {
      assert (x + y)[1..] == x[1..] + y;
      KeepPriceCharsAppend(x[1..], y);
    } else {
      assert x + y == y;
    }
  }

  /** One character is kept exactly when it is a digit, `,` or `-`. */
  lemma KeepPriceCharsSingle(c: char)
    ensures KeepPriceChars([c]) == if IsPriceChar(c) then [c] else []
  {
    assert [c][1..] == [];
  }

  /** `replace` with a string pattern rewrites the FIRST occurrence only. */
  lemma {:induction false} ReplaceFirstAt(s: string, a: char, b: char, k: nat)
    requires k < |s| && s[k] == a && a !in s[..k]
    ensures ReplaceFirst(s, a, b) == s[k := b]
  {
    if k > 0 {
      assert s[0] == s[..k][0];
      assert s[1..][..k - 1] == s[1..k];
      assert a !in s[1..][..k - 1] by {
        assert forall x :: x in s[1..k] ==> x in s[..k];
      }
      ReplaceFirstAt(s[1..], a, b, k - 1);
      assert s[k := b] == [s[0]] + s[1..][k - 1 := b];
    } else {
      assert s[k := b] == [b] + s[1..];
    }
  }

  /** Without the pattern character nothing is replaced. */
  lemma {:induction false} ReplaceFirstAbsent(s: string, a: char, b: char)
    requires a !in s
    ensures ReplaceFirst(s, a, b) == s
  {
    if s != [] {
      assert s[0] != a;
      assert a !in s[1..] by {
        assert forall x :: x in s[1..] ==> x in s;
      }
      ReplaceFirstAbsent(s[1..], a, b);
    }
  }

  /** The cleaned price is the stripped text with its first `,` turned into `.`,
      or the stripped text itself when there is no `,`. */
  lemma CleanPriceFirstComma(s: string, k: nat)
    requires k < |KeepPriceChars(s)| && KeepPriceChars(s)[k] == ',' && ',' !in KeepPriceChars(s)[..k]
    ensures CleanPrice(s) == KeepPriceChars(s)[k := '.']
  {
    ReplaceFirstAt(KeepPriceChars(s), ',', '.', k);
  }

  lemma CleanPriceNoComma(s: string)
    requires ',' !in s
    ensures CleanPrice(s) == KeepPriceChars(s)
  {
    KeepPriceCharsCounts(s);
    ReplaceFirstAbsent(KeepPriceChars(s), ',', '.');
  }

  lemma KeepPriceCharsCons(c: char, s: string)
    ensures KeepPriceChars([c] + s) == (if IsPriceChar(c) then [c] else []) + KeepPriceChars(s)
  {
    assert ([c] + s)[1..] == s;
  }

  lemma ReplaceFirstCons(c: char, s: string)
    ensures ReplaceFirst([c] + s, ',', '.')
         == if c == ',' then ['.'] + s else [c] + ReplaceFirst(s, ',', '.')
  {
    assert ([c] + s)[1..] == s;
  }

  /** The catalogue's own notation loses its decimal point (`9.99` cleans to
      `999`); a thousands comma becomes the decimal point (`1,299` cleans to
      `1.299`); Turkish decimal notation cleans to a decimal-point number (`2,50`
      to `2.50`); text without digits cleans to the empty string, which parseFloat
      turns into NaN; of two commas only the first becomes the point (`1,2,5` to
      `1.2,5`). */
  lemma CleanPriceExamples()
    ensures CleanPrice("9.99") == "999"
    ensures CleanPrice("1,299") == "1.299"
    ensures CleanPrice("2,50") == "2.50"
    ensures CleanPrice("TL") == ""
    ensures CleanPrice("1,2,5") == "1.2,5"
  {
    CleanPriceCatalogue();
    CleanPriceThousands();
    CleanPriceTurkish();
    CleanPriceNoDigits();
    CleanPriceTwoCommas();
  }

  lemma CleanPriceCatalogue()
    ensures CleanPrice("9.99") == "999"
  {
    KeepPriceCharsCons('9', ""); KeepPriceCharsCons('9', "9");
    KeepPriceCharsCons('.', "99"); KeepPriceCharsCons('9', ".99");
    ReplaceFirstCons('9', ""); ReplaceFirstCons('9', "9"); ReplaceFirstCons('9', "99");
  }

  lemma CleanPriceThousands()
    ensures CleanPrice("1,299") == "1.299"
  {
    KeepPriceCharsCons('9', ""); KeepPriceCharsCons('9', "9"); KeepPriceCharsCons('2', "99");
    KeepPriceCharsCons(',', "299"); KeepPriceCharsCons('1', ",299");
    ReplaceFirstCons(',', "299"); ReplaceFirstCons('1', ",299");
  }

  lemma CleanPriceTurkish()
    ensures CleanPrice("2,50") == "2.50"
  {
    KeepPriceCharsCons('0', ""); KeepPriceCharsCons('5', "0"); KeepPriceCharsCons(',', "50");
    KeepPriceCharsCons('2', ",50");
    ReplaceFirstCons(',', "50"); ReplaceFirstCons('2', ",50");
  }

  lemma CleanPriceTwoCommas()
    ensures CleanPrice("1,2,5") == "1.2,5"
  {
    KeepPriceCharsCons('5', ""); KeepPriceCharsCons(',', "5"); KeepPriceCharsCons('2', ",5");
    KeepPriceCharsCons(',', "2,5"); KeepPriceCharsCons('1', ",2,5");
    ReplaceFirstCons(',', "2,5"); ReplaceFirstCons('1', ",2,5");
  }

  lemma CleanPriceNoDigits()
    ensures CleanPrice("TL") == ""
  {
    KeepPriceCharsCons('L', ""); KeepPriceCharsCons('T', "L");
  }

  // ---------------------------------------------------------------- totals

  /** `calculatePrice(item.price) * item.quantity`, with `parseFloat` given. */
  function LinePrice(parseFloat: string -> Float, item: CartItem): Float
  {
    Scale(parseFloat(CleanPrice(item.price)), item.quantity)
  }

  /** `items.reduce((sum, item) => sum + calculatePrice(item.price) * item.quantity, 0)`. */
  function PriceTotal(parseFloat: string -> Float, items: seq<CartItem>): Float
  {
    if items == [] then Finite(0.0)
    else Add(PriceTotal(parseFloat, items[..|items| - 1]), LinePrice(parseFloat, items[|items| - 1]))
  }

  /** The price total is NaN exactly when some line's cleaned price does not parse:
      an unparseable price is not counted as 0. */
  lemma {:induction false} PriceTotalNaN(parseFloat: string -> Float, items: seq<CartItem>)
    ensures PriceTotal(parseFloat, items).NaN?
        <==> exists i :: 0 <= i < |items| && parseFloat(CleanPrice(items[i].price)).NaN?
  {
    if items != [] {
      var init := items[..|items| - 1];
      PriceTotalNaN(parseFloat, init);
      assert forall i :: 0 <= i < |init| ==> init[i] == items[i];
    }
  }

  // ---------------------------------------------------------------- storage

  /** `loadFromStorage()`: the stored list, `[]` outside a browser or when nothing
      is stored, None when JSON.parse throws. */
  function LoadFromStorage(isBrowser: bool, b: Blob): (r: Option<seq<CartItem>>)
    ensures r.None? <==> isBrowser && b.Malformed?
    ensures r.Some? && isBrowser && b.Items? ==> r.value == b.items
    ensures r.Some? && !(isBrowser && b.Items?) ==> r.value == []
  {
    if isBrowser then ParseStored(b) else Some([])
  }

  /** The effect of `saveToStorage(items)` on the browser: in a browser the list is
      stored and one event carrying it and its total quantity is dispatched;
      outside one nothing happens. */
  twostate predicate Saved(w: Window, items: seq<CartItem>)
    reads w
  {
    if w.isBrowser then
      w.storage == Items(items) && w.events == old(w.events) + [CartUpdated(items, TotalQuantity(items))]
    else
      w.storage == old(w.storage) && w.events == old(w.events)
  }

  /** `saveToStorage(items)`. */
  method SaveToStorage(w: Window, items: seq<CartItem>)
    modifies w
    ensures Saved(w, items)
  {
    if w.isBrowser {
      w.SetItem(items);
      w.DispatchEvent(CartUpdated(items, TotalQuantity(items)));
    }
  }

  // ---------------------------------------------------------------- the store

  /** The slice state: `CartState` of the source, with `parseFloat` and the browser
      it runs in given at creation. */
  class CartStore {
    const window: Window
    const parseFloat: string -> Float
    var items: seq<CartItem>
    var totalItems: int
    var totalPrice: Float
    var loading: bool
    var error: Option<string>

    /** The derived totals agree with the items. */
    ghost predicate Valid()
      reads this
    {
      && totalItems == TotalQuantity(items)
      && totalPrice == PriceTotal(parseFloat, items)
    }

    constructor (window: Window, parseFloat: string -> Float, items: seq<CartItem>)
      ensures Valid() && this.window == window && this.parseFloat == parseFloat
      ensures this.items == items && !loading && error == None
    {
      this.window := window;
      this.parseFloat := parseFloat;
      this.items := items;
      totalItems := TotalQuantity(items);
      totalPrice := PriceTotal(parseFloat, items);
      loading := false;
      error := None;
    }

    /** `initialState`, built when the module loads; a malformed stored blob makes
      the load throw and no store exists (null). */
    static method Create(window: Window, parseFloat: string -> Float) returns (store: CartStore?)
      ensures store == null <==> window.isBrowser && window.storage.Malformed?
      ensures store != null ==>
        && fresh(store) && store.Valid()
        && store.window == window && store.parseFloat == parseFloat
        && store.items == LoadFromStorage(window.isBrowser, window.storage).value
        && !store.loading && store.error == None
    {
      var loaded := LoadFromStorage(window.isBrowser, window.storage);
      if loaded.None? {
        store := null;
      } else {
        store := new CartStore(window, parseFloat, loaded.value);
      }
    }

    /** `addToCart`: increment the line with the payload's id, or append the payload
      with quantity 1; recompute the totals, persist, clear the error. */
    method AddToCart(req: AddToCartRequest)
      requires Valid()
      modifies this, window
      ensures Valid()
      ensures items == AddToItems(old(items), req)
      ensures Saved(window, items)
      ensures error == None && loading == old(loading)
    {
      var found := FindIndex(items, req.id);
      if found.Some? {
        var i := found.value;
        items := items[i := items[i].(quantity := items[i].quantity + 1)];
      } else {
        items := items + [NewLine(req)];
      }
      totalItems := TotalQuantity(items);
      totalPrice := PriceTotal(parseFloat, items);
      SaveToStorage(window, items);
      error := None;
    }

    /** `removeFromCart`: drop every line with the id and persist, even when no
      line had it. */
    method RemoveFromCart(id: int)
      requires Valid()
      modifies this, window
      ensures Valid()
      ensures items == RemoveId(old(items), id)
      ensures Saved(window, items)
      ensures error == old(error) && loading == old(loading)
    {
      items := RemoveId(items, id);
      totalItems := TotalQuantity(items);
      totalPrice := PriceTotal(parseFloat, items);
      SaveToStorage(window, items);
    }

    /** `updateQuantity`: with the id absent nothing happens (no save); otherwise a
      quantity of zero or less removes the id, any other quantity is set, and the
      result is persisted. */
    method UpdateQuantity(id: int, quantity: int)
      requires Valid()
      modifies this, window
      ensures Valid()
      ensures items == UpdateItems(old(items), id, quantity)
      ensures id in Ids(old(items)) ==> Saved(window, items)
      ensures id !in Ids(old(items)) ==>
        window.storage == old(window.storage) && window.events == old(window.events)
      ensures error == old(error) && loading == old(loading)
    {
      var found := FindIndex(items, id);
      if found.Some? {
        var i := found.value;
        if quantity <= 0 {
          items := RemoveId(items, id);
        } else {
          items := items[i := items[i].(quantity := quantity)];
        }
        totalItems := TotalQuantity(items);
        totalPrice := PriceTotal(parseFloat, items);
        SaveToStorage(window, items);
      }
    }

    /** `clearCart`: empty list, zero totals, `[]` persisted. */
    method ClearCart()
      requires Valid()
      modifies this, window
      ensures Valid()
      ensures items == [] && totalItems == 0 && totalPrice == Finite(0.0)
      ensures Saved(window, [])
      ensures error == old(error) && loading == old(loading)
    {
      items := [];
      totalItems := 0;
      totalPrice := Finite(0.0);
      SaveToStorage(window, []);
    }

    /** `setLoading`: only the flag changes. */
    method SetLoading(value: bool)
      requires Valid()
      modifies this`loading
      ensures Valid()
      ensures loading == value
    {
      loading := value;
    }

    /** `setError`: only the error changes. */
    method SetError(message: Option<string>)
      requires Valid()
      modifies this`error
      ensures Valid()
      ensures error == message
    {
      error := message;
    }

    /** `loadCartFromStorage`: replace the items wholesale by the stored list and
      recompute the totals, without persisting. When the stored text does not
      parse the reducer throws and the state is left as it was (`ok` is false). */
    method LoadCartFromStorage() returns (ok: bool)
      requires Valid()
      modifies this
      ensures Valid()
      ensures ok <==> LoadFromStorage(window.isBrowser, window.storage).Some?
      ensures ok ==> items == LoadFromStorage(window.isBrowser, window.storage).value
      ensures !ok ==> items == old(items)
      ensures error == old(error) && loading == old(loading)
    {
      var loaded := LoadFromStorage(window.isBrowser, window.storage);
      ok := loaded.Some?;
      if ok {
        items := loaded.value;
        totalItems := TotalQuantity(items);
        totalPrice := PriceTotal(parseFloat, items);
      }
    }
  }

  /** What a store keeps whatever sequence of reducers runs: with positive
      quantities and unique ids before add, remove, update or clear, both hold after,
      and `totalItems` is the quantity sum after each (it is part of `Valid`). */
  lemma ReducersKeepLinesWellFormed(items: seq<CartItem>, req: AddToCartRequest, id: int, quantity: int)
    requires AllPositive(items) && IdsUnique(items)
    ensures AllPositive(AddToItems(items, req)) && IdsUnique(AddToItems(items, req))
    ensures AllPositive(RemoveId(items, id)) && IdsUnique(RemoveId(items, id))
    ensures AllPositive(UpdateItems(items, id, quantity)) && IdsUnique(UpdateItems(items, id, quantity))
  {
    AddToItemsKeepsPositive(items, req);
    AddToItemsKeepsUnique(items, req);
    RemoveIdKeeps(items, id);
    UpdateItemsEffect(items, id, quantity);
  }
}
