/** The home application's sitemap: two fixed routes, one route per product and one
    route per distinct category, built from a given product list. */
module Sitemap {
  import opened Js
  import opened ProductsApi

  datatype ChangeFrequency = Daily | Weekly

  /** When an entry was last modified: the moment the sitemap is built (`new
      Date()`, or `Date.now()` for a product without a date), or a product's own
      `createdAt` text. */
  datatype LastModified = BuildTime | Created(text: string)

  datatype SitemapEntry = SitemapEntry(url: string, lastModified: LastModified, changeFrequency: ChangeFrequency, priority: real)

  /** `baseUrl`, chosen by `NODE_ENV === 'production'`. */
  function BaseUrl(production: bool): string
  {
    if production then "https://your-domain.com" else "http://localhost:3000"
  }

  /** `new Date(product.createdAt || Date.now())`. */
  function ProductLastModified(p: Product): LastModified
  {
    if p.createdAt.Some? && p.createdAt.value != "" then Created(p.createdAt.value) else BuildTime
  }

  function ProductRoute(baseUrl: string, p: Product): SitemapEntry
  {
    SitemapEntry(baseUrl + "/product/" + IntToString(p.id), ProductLastModified(p), Weekly, 0.7)
  }

  /** `categoryRoutes` entry, with `encodeURIComponent` given. */
  function CategoryRoute(baseUrl: string, encode: string -> string, category: string): SitemapEntry
  {
    SitemapEntry(baseUrl + "/?category=" + encode(category), BuildTime, Weekly, 0.6)
  }

  function Categories(products: seq<Product>): (r: seq<string>)
    ensures |r| == |products|
    ensures forall i :: 0 <= i < |products| ==> r[i] == products[i].category
  {
    seq(|products|, i requires 0 <= i < |products| => products[i].category)
  }

  /** `Array.from(new Set(xs))`: each value once, in the order it first appears. */
  function Distinct(xs: seq<string>): seq<string>
  {
    if xs == [] then []
    else
      var init := Distinct(xs[..|xs| - 1]);
      if xs[|xs| - 1] in init then init else init + [xs[|xs| - 1]]
  }

  /** `staticRoutes`. */
  function StaticRoutes(baseUrl: string): seq<SitemapEntry>
  {
    [SitemapEntry(baseUrl, BuildTime, Daily, 1.0), SitemapEntry(baseUrl + "/cart", BuildTime, Weekly, 0.8)]
  }

  /** `productRoutes`: `products.map(...)`. */
  function ProductRoutes(baseUrl: string, products: seq<Product>): (r: seq<SitemapEntry>)
    ensures |r| == |products|
    ensures forall i :: 0 <= i < |products| ==> r[i] == ProductRoute(baseUrl, products[i])
  {
    seq(|products|, i requires 0 <= i < |products| => ProductRoute(baseUrl, products[i]))
  }

  /** `categoryRoutes`: `categories.map(...)`. */
  function CategoryRoutes(baseUrl: string, encode: string -> string, categories: seq<string>): (r: seq<SitemapEntry>)
    ensures |r| == |categories|
    ensures forall i :: 0 <= i < |categories| ==> r[i] == CategoryRoute(baseUrl, encode, categories[i])
  {
    seq(|categories|, i requires 0 <= i < |categories| => CategoryRoute(baseUrl, encode, categories[i]))
  }

  /** The sitemap: static routes, then product routes in input order, then category
      routes in first-appearance order. */
  function BuildSitemap(production: bool, products: seq<Product>, encode: string -> string): seq<SitemapEntry>
  {
    var baseUrl := BaseUrl(production);
    StaticRoutes(baseUrl) + ProductRoutes(baseUrl, products) + CategoryRoutes(baseUrl, encode, Distinct(Categories(products)))
  }

  // ---------------------------------------------------------------- distinct

  /** The position where `x` first appears. */
  function FirstIndex(xs: seq<string>, x: string): (k: nat)
    requires x in xs
    ensures k < |xs| && xs[k] == x && x !in xs[..k]
  {
    if xs[0] == x then 0
    else
      var k := FirstIndex(xs[1..], x) + 1;
      assert xs[..k] == [xs[0]] + xs[1..][..k - 1];
      k
  }

  lemma {:induction false} FirstIndexSnoc(xs: seq<string>, z: string, x: string)
    requires x in xs
    ensures FirstIndex(xs + [z], x) == FirstIndex(xs, x)
  {
    if xs[0] != x {
      assert (xs + [z])[1..] == xs[1..] + [z];
      FirstIndexSnoc(xs[1..], z, x);
    }
  }

  /** `Array.from(new Set(xs))` holds each value of `xs` exactly once, and lists
      them by their first appearance in `xs`. */
  lemma {:induction false} DistinctMeaning(xs: seq<string>)
    ensures forall x :: x in Distinct(xs) <==> x in xs
    ensures forall i, j :: 0 <= i < j < |Distinct(xs)| ==> Distinct(xs)[i] != Distinct(xs)[j]
    ensures forall i, j :: 0 <= i < j < |Distinct(xs)| ==>
      FirstIndex(xs, Distinct(xs)[i]) < FirstIndex(xs, Distinct(xs)[j])
    ensures |Distinct(xs)| <= |xs|
  {
    if xs != [] {
      var init := xs[..|xs| - 1];
      var z := xs[|xs| - 1];
      var d := Distinct(init);
      DistinctMeaning(init);
      assert xs == init + [z];
      forall x | x in init {
        FirstIndexSnoc(init, z, x);
      }
      if z !in d {
        var r := d + [z];
        forall i, j | 0 <= i < j < |r| ensures FirstIndex(xs, r[i]) < FirstIndex(xs, r[j]) {
          if j == |d| {
            assert r[i] in init;
            assert z !in init;
            assert FirstIndex(xs, z) == |init|;
          }
        }
      }
    }
  }

  // ---------------------------------------------------------------- sitemap shape

  /** The sitemap's layout: 2 + |products| + |distinct categories| entries; the home
      page at priority 1 and the cart at 0.8 first; then `baseUrl/product/<id>` for
      every product in order; then `baseUrl/?category=<encoded>` for each distinct
      category. */
  lemma SitemapLayout(production: bool, products: seq<Product>, encode: string -> string)
    ensures var r := BuildSitemap(production, products, encode);
      var cats := Distinct(Categories(products));
      var base := BaseUrl(production);
      && |r| == 2 + |products| + |cats|
      && r[0] == SitemapEntry(base, BuildTime, Daily, 1.0)
      && r[1] == SitemapEntry(base + "/cart", BuildTime, Weekly, 0.8)
      && (forall i :: 0 <= i < |products| ==>
            r[2 + i].url == base + "/product/" + IntToString(products[i].id) && r[2 + i].priority == 0.7)
      && (forall j :: 0 <= j < |cats| ==>
            r[2 + |products| + j].url == base + "/?category=" + encode(cats[j]) && r[2 + |products| + j].priority == 0.6)
  {
    var base := BaseUrl(production);
    var st := StaticRoutes(base);
    var pr := ProductRoutes(base, products);
    var cr := CategoryRoutes(base, encode, Distinct(Categories(products)));
    var r := st + pr + cr;
    assert forall i :: 0 <= i < |pr| ==> r[2 + i] == pr[i];
    assert forall j :: 0 <= j < |cr| ==> r[2 + |pr| + j] == cr[j];
  }

  /** The category routes cover each product category exactly once: a category is
      listed if and only if some product has it, and no category is listed twice. */
  lemma SitemapCategories(products: seq<Product>)
    ensures var cats := Distinct(Categories(products));
      && (forall c :: c in cats <==> exists i :: 0 <= i < |products| && products[i].category == c)
      && (forall i, j :: 0 <= i < j < |cats| ==> cats[i] != cats[j])
  {
    var cs := Categories(products);
    var cats := Distinct(cs);
    DistinctMeaning(cs);
    forall c ensures c in cats <==> exists i :: 0 <= i < |products| && products[i].category == c {
      if c in cats {
        var i :| 0 <= i < |cs| && cs[i] == c;
        assert products[i].category == c;
      }
      if exists i :: 0 <= i < |products| && products[i].category == c {
        var i :| 0 <= i < |products| && products[i].category == c;
        assert cs[i] == c;
      }
    }
  }

  /** Products with different ids get different URLs. */
  lemma ProductUrlsDistinct(production: bool, products: seq<Product>)
    requires forall i, j :: 0 <= i < j < |products| ==> products[i].id != products[j].id
    ensures var r := ProductRoutes(BaseUrl(production), products);
      forall i, j :: 0 <= i < j < |r| ==> r[i].url != r[j].url
  {
    var base := BaseUrl(production);
    var r := ProductRoutes(base, products);
    forall i, j | 0 <= i < j < |r| ensures r[i].url != r[j].url {
      var prefix := base + "/product/";
      var a := IntToString(products[i].id);
      var b := IntToString(products[j].id);
      if r[i].url == r[j].url {
        assert prefix + a == prefix + b;
        assert a == (prefix + a)[|prefix|..];
        assert b == (prefix + b)[|prefix|..];
        IntToStringInjective(products[i].id, products[j].id);
      }
    }
  }
}
