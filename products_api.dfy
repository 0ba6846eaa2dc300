/** The home application's `/api/products` route: the product record, the image URL
    derived from a product name, and the GET pipeline (category filter, stock
    filter, limit, newest-first sort). */
module ProductsApi {
  import opened Js
  import opened Slug

  /** `Product`. `rating` and `description` play no part in any operation here and
      are not carried. */
  datatype Product = Product(
    id: int,
    name: string,
    category: string,
    price: string,
    imageUrl: string,
    inStock: Option<bool>,
    createdAt: Option<string>,
    slug: Option<string>)

  /** The three query parameters, None when absent from the URL. */
  datatype Query = Query(category: Option<string>, inStock: Option<string>, limit: Option<string>)

  /** The JSON body of a successful GET (the timestamp is not modelled). */
  datatype ProductsResponse = ProductsResponse(success: bool, data: seq<Product>, total: int)

  // ---------------------------------------------------------------- image URL

  const PlaceholderSvg: string := "/placeholder.svg"
  const SmartWatchMain: string := "/products/smart-watch/main.jpg"

  /** The own keys of the route's `imageMap`. */
  const ImageMap: map<string, string> := map["akilli-saat" := SmartWatchMain, "smart-watch" := SmartWatchMain]

  /** The properties every object literal inherits from `Object.prototype`. */
  const InheritedProperties: set<string> := {
    "constructor", "hasOwnProperty", "isPrototypeOf", "propertyIsEnumerable",
    "toString", "toLocaleString", "valueOf", "__proto__",
    "__defineGetter__", "__defineSetter__", "__lookupGetter__", "__lookupSetter__"}

  /** A JavaScript value as far as `imageMap[slug] || '/placeholder.svg'` can see
      it: a string, an inherited function (or prototype object), or `undefined`. */
  datatype JsValue = Str(s: string) | InheritedMember(key: string) | Undefined

  /** `imageMap[slug]` as written: own keys first, then the prototype chain. */
  function ImageMapLookup(slug: string): JsValue
  {
    if slug in ImageMap then Str(ImageMap[slug])
    else if slug in InheritedProperties then InheritedMember(slug)
    else Undefined
  }

  predicate Truthy(v: JsValue)
  {
    v.InheritedMember? || (v.Str? && v.s != "")
  }

  /** `getProductImageUrl(productName)` exactly as the route writes it. */
  function GetProductImageUrlAsWritten(productName: string): JsValue
  {
    var v := ImageMapLookup(NameToSlug(productName));
    if Truthy(v) then v else Str(PlaceholderSvg)
  }

  /** `getProductImageUrl(productName)` restricted to the map's own keys, which is
      what its `string` return type promises. */
  function GetProductImageUrl(productName: string): (r: string)
    ensures r == SmartWatchMain || r == PlaceholderSvg
    ensures r == SmartWatchMain <==> NameToSlug(productName) in ImageMap
  {
    var slug := NameToSlug(productName);
    ImageMapPaths(slug);
    if slug in ImageMap then ImageMap[slug] else PlaceholderSvg
  }

  /** Both keys map to the smart watch's main image, which is not the placeholder. */
  lemma ImageMapPaths(slug: string)
    ensures slug in ImageMap ==> ImageMap[slug] == SmartWatchMain
    ensures SmartWatchMain != PlaceholderSvg
  {
    assert SmartWatchMain[2] != PlaceholderSvg[2];
  }

  /** Of the inherited property names, only `constructor` can come out of
      `nameToSlug`; the others all hold an upper-case letter or `_`. */
  lemma InheritedSlugs(k: string)
    requires k in InheritedProperties && IsSlug(k)
    ensures k == "constructor"
  {
    if k in {"hasOwnProperty", "isPrototypeOf", "propertyIsEnumerable"} {
      CamelCaseNotSlugs(k);
    } else if k in {"toString", "toLocaleString", "valueOf"} {
      ConversionNotSlugs(k);
    } else if k in {"__proto__", "__defineGetter__", "__defineSetter__", "__lookupGetter__", "__lookupSetter__"} {
      UnderscoreNotSlugs(k);
    }
  }

  lemma CamelCaseNotSlugs(k: string)
    requires k in {"hasOwnProperty", "isPrototypeOf", "propertyIsEnumerable"}
    ensures !IsSlug(k)
  {
    if k == "hasOwnProperty" { NotSlugAt(k, 3); }
    else if k == "isPrototypeOf" { NotSlugAt(k, 2); }
    else { NotSlugAt(k, 8); }
  }

  lemma ConversionNotSlugs(k: string)
    requires k in {"toString", "toLocaleString", "valueOf"}
    ensures !IsSlug(k)
  {
    if k == "valueOf" { NotSlugAt(k, 5); }
    else { NotSlugAt(k, 2); }
  }

  lemma UnderscoreNotSlugs(k: string)
    requires k in {"__proto__", "__defineGetter__", "__defineSetter__", "__lookupGetter__", "__lookupSetter__"}
    ensures !IsSlug(k)
  {
    NotSlugAt(k, 0);
  }

  lemma NotSlugAt(k: string, i: nat)
    requires i < |k| && !IsSlugChar(k[i]) && k[i] != '-'
    ensures !IsSlug(k)
  {
  }

  /** For every name except those whose slug is `constructor`, the route's lookup is
      the own-key lookup: the mapped path for `akilli-saat` and `smart-watch`, the
      placeholder for everything else. */
  lemma ImageUrlAgrees(productName: string)
    requires NameToSlug(productName) != "constructor"
    ensures GetProductImageUrlAsWritten(productName) == Str(GetProductImageUrl(productName))
  {
    var slug := NameToSlug(productName);
    LookupAgrees(slug);
  }

  lemma LookupAgrees(slug: string)
    requires IsSlug(slug) && slug != "constructor"
    ensures var v := ImageMapLookup(slug);
      (if Truthy(v) then v else Str(PlaceholderSvg)) == Str(if slug in ImageMap then ImageMap[slug] else PlaceholderSvg)
  {
    ImageMapPaths(slug);
    if slug !in ImageMap && slug in InheritedProperties {
      InheritedSlugs(slug);
      assert false;
    }
  }

  /** The name `constructor` is its own slug, finds `Object` through the prototype
      chain, and the route returns that function instead of a path. */
  lemma ConstructorNameReturnsFunction()
    ensures GetProductImageUrlAsWritten("constructor") == InheritedMember("constructor")
    ensures GetProductImageUrl("constructor") == PlaceholderSvg
  {
    ConstructorIsItsSlug();
    ConstructorLookup();
    ImageMapPaths("constructor");
  }

  lemma ConstructorIsItsSlug()
    ensures NameToSlug("constructor") == "constructor"
  {
    assert IsSlug("constructor");
    SlugFixed("constructor");
  }

  lemma ConstructorLookup()
    ensures "constructor" !in ImageMap
    ensures ImageMapLookup("constructor") == InheritedMember("constructor")
  {
    assert "constructor"[0] != "akilli-saat"[0] && "constructor"[0] != "smart-watch"[0];
  }

  /** The catalogue's first product finds the real image through its Turkish slug. */
  lemma SmartWatchImageUrl()
    ensures GetProductImageUrl("Ak\U{0131}ll\U{0131} Saat") == SmartWatchMain
  {
    SmartWatchSlug();
  }

  // ---------------------------------------------------------------- filters

  /** `product.category.toLowerCase() === category.toLowerCase()`. */
  function FilterCategory(s: seq<Product>, category: string): (r: seq<Product>)
    ensures |r| <= |s|
    ensures forall p :: p in r <==> p in s && ToLower(p.category) == ToLower(category)
  {
    if s == [] then []
    else (if ToLower(s[0].category) == ToLower(category) then [s[0]] else []) + FilterCategory(s[1..], category)
  }

  /** `product.inStock === stockFilter`: a product without the field matches neither
      value. */
  function FilterStock(s: seq<Product>, stockFilter: bool): (r: seq<Product>)
    ensures |r| <= |s|
    ensures forall p :: p in r <==> p in s && p.inStock == Some(stockFilter)
  {
    if s == [] then []
    else (if s[0].inStock == Some(stockFilter) then [s[0]] else []) + FilterStock(s[1..], stockFilter)
  }

  lemma {:induction false} FilterCategoryAppend(a: seq<Product>, b: seq<Product>, c: string)
    ensures FilterCategory(a + b, c) == FilterCategory(a, c) + FilterCategory(b, c)
  {
    if a != [] {
      assert (a + b)[1..] == a[1..] + b;
      FilterCategoryAppend(a[1..], b, c);
    } else {
      assert a + b == b;
    }
  }

  lemma {:induction false} FilterStockAppend(a: seq<Product>, b: seq<Product>, v: bool)
    ensures FilterStock(a + b, v) == FilterStock(a, v) + FilterStock(b, v)
  {
    if a != [] {
      assert (a + b)[1..] == a[1..] + b;
      FilterStockAppend(a[1..], b, v);
    } else {
      assert a + b == b;
    }
  }

  /** `if (category)`: a present, non-empty parameter. */
  predicate HasCategory(q: Query) { q.category.Some? && q.category.value != "" }

  /** Whether a product passes both filters of a query. */
  predicate Matches(q: Query, p: Product)
  {
    && (HasCategory(q) ==> ToLower(p.category) == ToLower(q.category.value))
    && (q.inStock.Some? ==> p.inStock == Some(q.inStock.value == "true"))
  }

  /** The list after both filters, in catalogue order. */
  function Filtered(catalogue: seq<Product>, q: Query): seq<Product>
  {
    var byCategory := if HasCategory(q) then FilterCategory(catalogue, q.category.value) else catalogue;
    if q.inStock.Some? then FilterStock(byCategory, q.inStock.value == "true") else byCategory
  }

  /** The filters keep exactly the products that match the query, and an `inStock`
      value other than `true` selects the out-of-stock products. */
  lemma FilteredMeaning(catalogue: seq<Product>, q: Query)
    ensures forall p :: p in Filtered(catalogue, q) <==> p in catalogue && Matches(q, p)
    ensures q.inStock.Some? && q.inStock.value != "true" ==>
      forall p :: p in Filtered(catalogue, q) ==> p.inStock == Some(false)
    ensures |Filtered(catalogue, q)| <= |catalogue|
  {
  }

  /** Filtering runs product by product: filtering a concatenation filters each
      part, so the catalogue order is kept. */
  lemma FilteredAppend(a: seq<Product>, b: seq<Product>, q: Query)
    ensures Filtered(a + b, q) == Filtered(a, q) + Filtered(b, q)
  {
    if HasCategory(q) {
      FilterCategoryAppend(a, b, q.category.value);
    }
    var ca := if HasCategory(q) then FilterCategory(a, q.category.value) else a;
    var cb := if HasCategory(q) then FilterCategory(b, q.category.value) else b;
    if q.inStock.Some? {
      FilterStockAppend(ca, cb, q.inStock.value == "true");
    }
  }

  // ---------------------------------------------------------------- limit

  /** The end index `Array.prototype.slice(0, n)` uses on a list of length `len`. */
  function SliceEnd(len: nat, n: int): (r: nat)
    ensures r <= len
  {
    if n < 0 then (if len + n > 0 then len + n else 0)
    else if n < len then n else len
  }

  /** `if (limit) { n = parseInt(limit, 10); if (!isNaN(n)) list = list.slice(0, n) }`. */
  function Limit(s: seq<Product>, limit: Option<string>): (r: seq<Product>)
    ensures |r| <= |s| && r == s[..|r|]
  {
    if limit.None? || limit.value == "" then s
    else
      match ParseInt(limit.value)
      case None => s
      case Some(n) => s[..SliceEnd(|s|, n)]
  }

  /** The limit keeps a prefix: the first `n` products for a numeric limit `n >= 0`,
      all but the last `|n|` for a negative one, everything when the parameter is
      absent, empty or not a number. */
  lemma LimitMeaning(s: seq<Product>, limit: Option<string>)
    ensures limit.None? || limit == Some("") ==> Limit(s, limit) == s
    ensures limit.Some? && limit.value != "" && ParseInt(limit.value).None? ==> Limit(s, limit) == s
    ensures limit.Some? && limit.value != "" && ParseInt(limit.value).Some? ==>
      var n := ParseInt(limit.value).value;
      && (n >= 0 ==> |Limit(s, limit)| == if n < |s| then n else |s|)
      && (n < 0 ==> |Limit(s, limit)| == if |s| + n > 0 then |s| + n else 0)
  {
  }

  // ---------------------------------------------------------------- sort

  /** `new Date(p.createdAt || '').getTime()`, with the date parser given: None is
      NaN, which a missing or empty `createdAt` always gives. */
  function Stamp(timeOf: string -> Option<int>, p: Product): Option<int>
  {
    if p.createdAt.Some? && p.createdAt.value != "" then timeOf(p.createdAt.value) else None
  }

  /** The comparator `(a, b) => time(b) - time(a)`, with a NaN result read as 0
      (equal), as the array sort does. */
  function Compare(timeOf: string -> Option<int>, a: Product, b: Product): int
  {
    var ta := Stamp(timeOf, a);
    var tb := Stamp(timeOf, b);
    if ta.Some? && tb.Some? then tb.value - ta.value else 0
  }

  /** Insert `x` after every element that does not compare greater than it: the
      step of a stable sort. */
  function Insert(timeOf: string -> Option<int>, x: Product, s: seq<Product>): (r: seq<Product>)
    ensures multiset(r) == multiset(s) + multiset{x}
    ensures |r| == |s| + 1
  {
    if s == [] then [x]
    else if Compare(timeOf, s[0], x) > 0 then [x] + s
    else
      var rest := Insert(timeOf, x, s[1..]);
      assert s == [s[0]] + s[1..];
      [s[0]] + rest
  }

  /** `list.sort(comparator)`, as a stable insertion sort. */
  function SortNewestFirst(timeOf: string -> Option<int>, s: seq<Product>): (r: seq<Product>)
    ensures multiset(r) == multiset(s)
    ensures |r| == |s|
  {
    if s == [] then []
    else
      assert s == s[..|s| - 1] + [s[|s| - 1]];
      Insert(timeOf, s[|s| - 1], SortNewestFirst(timeOf, s[..|s| - 1]))
  }

  predicate AllDated(timeOf: string -> Option<int>, s: seq<Product>)
  {
    forall i :: 0 <= i < |s| ==> Stamp(timeOf, s[i]).Some?
  }

  /** Newest first: no product precedes a strictly newer one. */
  predicate NewestFirst(timeOf: string -> Option<int>, s: seq<Product>)
    requires AllDated(timeOf, s)
  {
    forall i, j :: 0 <= i < j < |s| ==> Stamp(timeOf, s[i]).value >= Stamp(timeOf, s[j]).value
  }

  /** Every product of `s` is dated no later than `v`. */
  predicate NoNewerThan(timeOf: string -> Option<int>, s: seq<Product>, v: int)
  {
    forall j :: 0 <= j < |s| ==> Stamp(timeOf, s[j]).Some? && Stamp(timeOf, s[j]).value <= v
  }

  lemma {:induction false} InsertNoNewer(timeOf: string -> Option<int>, x: Product, s: seq<Product>, v: int)
    requires NoNewerThan(timeOf, s, v) && Stamp(timeOf, x).Some? && Stamp(timeOf, x).value <= v
    ensures NoNewerThan(timeOf, Insert(timeOf, x, s), v)
  {
    if s != [] && Compare(timeOf, s[0], x) <= 0 {
      InsertNoNewer(timeOf, x, s[1..], v);
    }
  }

  lemma {:induction false} InsertSorted(timeOf: string -> Option<int>, x: Product, s: seq<Product>)
    requires AllDated(timeOf, s) && Stamp(timeOf, x).Some? && NewestFirst(timeOf, s)
    ensures AllDated(timeOf, Insert(timeOf, x, s)) && NewestFirst(timeOf, Insert(timeOf, x, s))
  {
    if s == [] {
    } else if Compare(timeOf, s[0], x) > 0 {
      assert NoNewerThan(timeOf, s, Stamp(timeOf, x).value);
    } else {
      var top := Stamp(timeOf, s[0]).value;
      assert NoNewerThan(timeOf, s[1..], top);
      InsertNoNewer(timeOf, x, s[1..], top);
      InsertSorted(timeOf, x, s[1..]);
    }
  }

  /** With every product dated, the sort puts the newest first. */
  lemma {:induction false} SortSorted(timeOf: string -> Option<int>, s: seq<Product>)
    requires AllDated(timeOf, s)
    ensures AllDated(timeOf, SortNewestFirst(timeOf, s)) && NewestFirst(timeOf, SortNewestFirst(timeOf, s))
  {
    if s != [] {
      var init := s[..|s| - 1];
      assert AllDated(timeOf, init);
      SortSorted(timeOf, init);
      InsertSorted(timeOf, s[|s| - 1], SortNewestFirst(timeOf, init));
    }
  }

  /** The products of `s` dated `v`, in the order of `s`. */
  function DatedAt(timeOf: string -> Option<int>, s: seq<Product>, v: int): seq<Product>
  {
    if s == [] then []
    else (if Stamp(timeOf, s[0]) == Some(v) then [s[0]] else []) + DatedAt(timeOf, s[1..], v)
  }

  lemma DatedAtCons(timeOf: string -> Option<int>, x: Product, s: seq<Product>, v: int)
    ensures DatedAt(timeOf, [x] + s, v) == (if Stamp(timeOf, x) == Some(v) then [x] else []) + DatedAt(timeOf, s, v)
  {
    assert ([x] + s)[0] == x;
    assert ([x] + s)[1..] == s;
  }

  lemma {:induction false} DatedAtAppend(timeOf: string -> Option<int>, a: seq<Product>, b: seq<Product>, v: int)
    ensures DatedAt(timeOf, a + b, v) == DatedAt(timeOf, a, v) + DatedAt(timeOf, b, v)
  {
    if a == [] {
      assert a + b == b;
    } else {
      assert a + b == [a[0]] + (a[1..] + b);
      assert a == [a[0]] + a[1..];
      DatedAtCons(timeOf, a[0], a[1..] + b, v);
      DatedAtCons(timeOf, a[0], a[1..], v);
      DatedAtAppend(timeOf, a[1..], b, v);
    }
  }

  lemma {:induction false} DatedAtNone(timeOf: string -> Option<int>, s: seq<Product>, w: int, v: int)
    requires NoNewerThan(timeOf, s, w) && w < v
    ensures DatedAt(timeOf, s, v) == []
  {
    if s != [] {
      assert NoNewerThan(timeOf, s[1..], w);
      DatedAtNone(timeOf, s[1..], w, v);
    }
  }

  /** `x` newer than the head of a newest-first list goes in front, and no product
      of the list has its date. */
  lemma InsertStableFront(timeOf: string -> Option<int>, x: Product, s: seq<Product>, v: int)
    requires s != [] && AllDated(timeOf, s) && Stamp(timeOf, x).Some? && NewestFirst(timeOf, s)
    requires Compare(timeOf, s[0], x) > 0
    ensures DatedAt(timeOf, [x] + s, v)
         == DatedAt(timeOf, s, v) + (if Stamp(timeOf, x) == Some(v) then [x] else [])
  {
    var w := Stamp(timeOf, s[0]).value;
    assert NoNewerThan(timeOf, s, w);
    if Stamp(timeOf, x) == Some(v) {
      DatedAtNone(timeOf, s, w, v);
    }
    DatedAtCons(timeOf, x, s, v);
  }

  lemma TailSorted(timeOf: string -> Option<int>, s: seq<Product>)
    requires s != [] && AllDated(timeOf, s) && NewestFirst(timeOf, s)
    ensures AllDated(timeOf, s[1..]) && NewestFirst(timeOf, s[1..])
  {
    assert AllDated(timeOf, s[1..]);
  }

  /** Inserting `x` into a newest-first list puts it after every product of the
      same date. */
  lemma {:induction false} InsertStable(timeOf: string -> Option<int>, x: Product, s: seq<Product>, v: int)
    requires AllDated(timeOf, s) && Stamp(timeOf, x).Some? && NewestFirst(timeOf, s)
    ensures DatedAt(timeOf, Insert(timeOf, x, s), v)
         == DatedAt(timeOf, s, v) + (if Stamp(timeOf, x) == Some(v) then [x] else [])
  {
    var last := if Stamp(timeOf, x) == Some(v) then [x] else [];
    if s == [] {
      assert Insert(timeOf, x, s) == [x] + [];
      DatedAtCons(timeOf, x, [], v);
    } else if Compare(timeOf, s[0], x) > 0 {
      assert Insert(timeOf, x, s) == [x] + s;
      InsertStableFront(timeOf, x, s, v);
    } else {
      TailSorted(timeOf, s);
      InsertStable(timeOf, x, s[1..], v);
      InsertStableSkip(timeOf, x, s, v);
    }
  }

  lemma ProductsAssoc(a: seq<Product>, b: seq<Product>, c: seq<Product>)
    ensures a + (b + c) == (a + b) + c
  {
  }

  /** `x` not newer than the head goes behind it: one step of the induction. */
  lemma InsertStableSkip(timeOf: string -> Option<int>, x: Product, s: seq<Product>, v: int)
    requires s != [] && Compare(timeOf, s[0], x) <= 0
    requires DatedAt(timeOf, Insert(timeOf, x, s[1..]), v)
          == DatedAt(timeOf, s[1..], v) + (if Stamp(timeOf, x) == Some(v) then [x] else [])
    ensures DatedAt(timeOf, Insert(timeOf, x, s), v)
         == DatedAt(timeOf, s, v) + (if Stamp(timeOf, x) == Some(v) then [x] else [])
  {
    var last := if Stamp(timeOf, x) == Some(v) then [x] else [];
    var tail := s[1..];
    var head := if Stamp(timeOf, s[0]) == Some(v) then [s[0]] else [];
    var rest := Insert(timeOf, x, tail);
    assert Insert(timeOf, x, s) == [s[0]] + rest;
    calc {
      DatedAt(timeOf, Insert(timeOf, x, s), v);
      DatedAt(timeOf, [s[0]] + rest, v);
      { DatedAtCons(timeOf, s[0], rest, v); }
      head + DatedAt(timeOf, rest, v);
      head + (DatedAt(timeOf, tail, v) + last);
      { ProductsAssoc(head, DatedAt(timeOf, tail, v), last); }
      (head + DatedAt(timeOf, tail, v)) + last;
      DatedAt(timeOf, s, v) + last;
    }
  }

  /** With every product dated, the sort is stable: for every date, the products of
      that date keep their catalogue order, as `Array.prototype.sort` guarantees. */
  lemma {:induction false} SortStable(timeOf: string -> Option<int>, s: seq<Product>, v: int)
    requires AllDated(timeOf, s)
    ensures DatedAt(timeOf, SortNewestFirst(timeOf, s), v) == DatedAt(timeOf, s, v)
  {
    if s != [] {
      var init := s[..|s| - 1];
      var x := s[|s| - 1];
      var sorted := SortNewestFirst(timeOf, init);
      var last := if Stamp(timeOf, x) == Some(v) then [x] else [];
      assert AllDated(timeOf, init);
      assert s == init + [x];
      SortSorted(timeOf, init);
      calc {
        DatedAt(timeOf, SortNewestFirst(timeOf, s), v);
        DatedAt(timeOf, Insert(timeOf, x, sorted), v);
        { InsertStable(timeOf, x, sorted, v); }
        DatedAt(timeOf, sorted, v) + last;
        { SortStable(timeOf, init, v); }
        DatedAt(timeOf, init, v) + last;
        { DatedAtCons(timeOf, x, [], v); assert [x] + [] == [x]; }
        DatedAt(timeOf, init, v) + DatedAt(timeOf, [x], v);
        { DatedAtAppend(timeOf, init, [x], v); }
        DatedAt(timeOf, s, v);
      }
    }
  }

  // ---------------------------------------------------------------- GET

  /** `GET /api/products`: filter by category, filter by stock, apply the limit to
      the filtered list in catalogue order, then sort newest first; `total` is the
      length of what is returned. */
  method Get(catalogue: seq<Product>, q: Query, timeOf: string -> Option<int>) returns (resp: ProductsResponse)
    ensures resp.success && resp.total == |resp.data|
    ensures resp.data == SortNewestFirst(timeOf, Limit(Filtered(catalogue, q), q.limit))
  {
    var filteredProducts := catalogue;
    if q.category.Some? && q.category.value != "" {
      filteredProducts := FilterCategory(filteredProducts, q.category.value);
    }
    if q.inStock.Some? {
      var stockFilter := q.inStock.value == "true";
      filteredProducts := FilterStock(filteredProducts, stockFilter);
    }
    filteredProducts := Limit(filteredProducts, q.limit);
    filteredProducts := SortNewestFirst(timeOf, filteredProducts);
    resp := ProductsResponse(true, filteredProducts, |filteredProducts|);
  }

  /** What GET returns: a permutation of a prefix of the filtered catalogue, so only
      products that are in the catalogue and match the query; newest first when
      every product carries a valid date. */
  lemma GetResult(catalogue: seq<Product>, q: Query, timeOf: string -> Option<int>)
    ensures var data := SortNewestFirst(timeOf, Limit(Filtered(catalogue, q), q.limit));
      && multiset(data) == multiset(Limit(Filtered(catalogue, q), q.limit))
      && |data| <= |catalogue|
      && (forall p :: p in data ==> p in catalogue && Matches(q, p))
      && (AllDated(timeOf, catalogue) ==> AllDated(timeOf, data) && NewestFirst(timeOf, data))
  {
    var filtered := Filtered(catalogue, q);
    var limited := Limit(filtered, q.limit);
    var data := SortNewestFirst(timeOf, limited);
    FilteredMeaning(catalogue, q);
    forall p | p in data ensures p in catalogue && Matches(q, p) {
      assert p in multiset(limited);
      assert p in filtered;
    }
    if AllDated(timeOf, catalogue) {
      forall i | 0 <= i < |limited| ensures Stamp(timeOf, limited[i]).Some? {
        assert limited[i] in filtered;
        var k :| 0 <= k < |catalogue| && catalogue[k] == limited[i];
      }
      SortSorted(timeOf, limited);
    }
  }
}
