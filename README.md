# Micro-frontends shop: cart and catalogue core in Dafny

This project models the core of a two-application shop. One application is
`home`: the catalogue, its product API, its sitemap and a cart counter hook. The
other is `cart`: a Redux cart slice, an in-memory cart API and a loader that
rebuilds the cart from a URL parameter. A shared package maps product slugs to
image paths. The two applications share only the browser: the `cart-items` entry
of local storage and `cart-updated` events on `window`.

Modules, one per source file (plus two shared ones):

- `Js`: the JavaScript behaviour the core relies on. It covers `parseInt(s, 10)`,
  parsed JSON values with their truthiness and `===`,
  `toLowerCase` on the alphabet the catalogue uses, number-to-text conversion, and
  a NaN-aware number type.
- `CartTypes`: the cart line and the add payload of `cart/store/types.ts`. It also
  holds the list rules both carts use: increment-or-append, remove-by-id, set a
  quantity, and the quantity sum.
- `Browser`: the shared local-storage entry and the event log, as a `Window`
  class whose fields the methods update.
- `CartSlice`: `cart/store/cartSlice.ts`. It holds the price cleaner, the totals
  and the persistence helpers. The slice state is a `CartStore` class; each
  reducer is a method, proved against the list rules of `CartTypes`.
- `UseCart`: `home/hooks/useCart.ts`, the hook's state as a `CartHook` class.
- `CartApi`: `cart/app/api/cart/route.ts`. The module-level array is the field of
  a `CartRoute` class; GET and POST are its methods.
- `UrlCartLoader`: `cart/app/components/URLCartLoader.tsx`. The nested dispatch
  loops are methods with loop invariants. The effect is proved equal to a replay
  function, and the replay is proved to rebuild the encoded cart.
- `Slug`: `nameToSlug`. `home/app/api/products/route.ts` and
  `shared-components/product/index.ts` carry identical copies; one function
  models both.
- `ProductImages`: `shared-components/product/index.ts`.
- `ProductsApi`: `home/app/api/products/route.ts`, covering the image URL and the
  GET pipeline.
- `Sitemap`: `home/app/sitemap.ts`.

Two behaviours of the code are easy to misread:

- **Price cleaning.** `calculatePrice` keeps digits, `,` and `-` only, so every
  `.` is dropped (`9.99` becomes `999`). It then turns only the first `,` into
  `.`. An unparseable result, such as the empty string left by `TL`, is NaN, not
  0, and one NaN line makes the whole price total NaN. The model is the code:
  `CartSlice.CleanPrice` and `CartSlice.PriceTotalNaN`.
- **Malformed storage.** `loadFromStorage` lets the `JSON.parse` exception
  escape. Creating the store then fails (`CartStore.Create` returns null), and
  `loadCartFromStorage` throws before changing the state (`LoadCartFromStorage`
  returns false and changes nothing). `useCart` catches the exception and writes
  nothing.

External behaviour is passed in as parameters:

- `parseFloat` is a function `string -> Float`.
- `new Date(text).getTime()` is a function `string -> Option<int>`.
- The URL decoding chain `JSON.parse(atob(decodeURIComponent(...)))` is a function
  to `Decoded`.
- `encodeURIComponent` is a function `string -> string`.
- `NODE_ENV === 'production'` is a boolean.

## Model

| member | source | states |
|---|---|---|
| Js.ParseInt | home/app/api/products/route.ts:146-147 | `parseInt(limit, 10)` skips the ECMAScript white space and line terminators, reads an optional sign, then the longest run of digits. It is NaN (None) exactly when that run is empty. Otherwise its value is the run's decimal value, negated after a `-`. |
| Js.ParseIntSkipsWhiteSpace | home/app/api/products/route.ts:146-147 | Any leading JS white-space character does not change the result, whatever follows. |
| Js.ParseIntSkipsIdeographicSpace | home/app/api/products/route.ts:146-147 | A leading ideographic space U+3000 does not change the result, whatever follows. |
| Js.IntToStringInjective | home/app/sitemap.ts:30 | Different product ids print as different decimal texts. |
| CartTypes.FindIndex | cart/store/cartSlice.ts:45 | Returns the first line carrying the id. Returns None exactly when no line has the id. |
| CartTypes.AddToItemsExisting | cart/store/cartSlice.ts:45-48 | When the id is present, the list keeps its length and every line's id. Other ids' lines are unchanged, and the id's quantity grows by exactly 1. |
| CartTypes.AddToItemsNew | cart/store/cartSlice.ts:49-54 | When the id is absent, the payload is appended as a new line with quantity 1. |
| CartTypes.AddToItemsTotals | cart/store/cartSlice.ts:43-57 | An add puts the id in the id set and raises `totalItems` by exactly 1. |
| CartTypes.AddToItemsQuantityOf | cart/store/cartSlice.ts:43-54 | An add raises the payload id's quantity by 1 and leaves every other id's quantity alone. |
| CartTypes.AddToItemsIsIncrementOrAppend | home/hooks/useCart.ts:88-100 | The index-based rule the slice uses equals the hook's find-then-mutate-or-push rule, written independently. |
| CartTypes.AddToItemsKeepsUnique | cart/store/cartSlice.ts:45-54 | Adding never creates a second line for an id. |
| CartTypes.AddToItemsKeepsPositive | cart/store/cartSlice.ts:48-53 | Adding keeps every quantity at least 1. |
| CartTypes.AddTwiceMerges | cart/store/cartSlice.ts:43-54 | Adding a new product twice gives one appended line with quantity 2. |
| CartTypes.RemoveId | cart/store/cartSlice.ts:66 | A line survives the filter if and only if it was in the list and carries another id. |
| CartTypes.RemoveIdIds | cart/store/cartSlice.ts:66 | The id set loses exactly the removed id. Removing an absent id changes nothing. |
| CartTypes.RemoveIdAppend | cart/store/cartSlice.ts:66 | The filter works line by line: filtering a concatenation filters each part, so the order of the kept lines is preserved. |
| CartTypes.RemoveIdSingle | cart/store/cartSlice.ts:66 | A single line is dropped exactly when it carries the id. |
| CartTypes.RemoveIdIdempotent | cart/store/cartSlice.ts:66 | Removing the same id twice is the same as removing it once. |
| CartTypes.RemoveIdKeeps | cart/store/cartSlice.ts:66 | Removing keeps ids unique and quantities positive. |
| CartTypes.TotalQuantityRemove | cart/store/cartSlice.ts:66-67 | After a remove, `totalItems` drops by exactly the removed id's quantity. |
| CartTypes.UpdateItemsSetsFirst | cart/store/cartSlice.ts:74-81 | A positive quantity is set on the first line with the id only. That line keeps its name, category, price and image, and every other line is unchanged. |
| CartTypes.UpdateItemsEffect | cart/store/cartSlice.ts:72-87 | For an absent id nothing changes. A quantity of 0 or less removes the id. Any other quantity is set on the id's line, and all other lines are kept. Unique ids and positive quantities are preserved. |
| Browser.ParseStored | cart/store/cartSlice.ts:22-23 | Reading the stored entry fails exactly when the text is malformed. An absent or empty entry reads as `[]`; a stored list reads as itself. |
| Browser.Window.SetItem | cart/store/cartSlice.ts:12 | The stored entry becomes the list; the events are unchanged. |
| Browser.Window.DispatchEvent | cart/store/cartSlice.ts:14-16 | The event is appended to the event log; storage is unchanged. |
| CartSlice.KeepPriceChars | cart/store/cartSlice.ts:6 | The `[^0-9,-]` strip leaves only digits, `,` and `-`, and never lengthens the text. |
| CartSlice.KeepPriceCharsAppend | cart/store/cartSlice.ts:6 | The strip works character by character: stripping a concatenation strips each part. So every digit, `,` and `-` stays, in order and in its place among the others. |
| CartSlice.KeepPriceCharsSingle | cart/store/cartSlice.ts:6 | One character is kept exactly when it is a digit, `,` or `-`. |
| CartSlice.ReplaceFirst | cart/store/cartSlice.ts:6 | The text keeps its length, and each position either is unchanged or had the pattern character, now replaced. |
| CartSlice.ReplaceFirstAt | cart/store/cartSlice.ts:6 | `replace(',', '.')` with a string pattern rewrites the first `,` and no other. |
| CartSlice.ReplaceFirstAbsent | cart/store/cartSlice.ts:6 | Without a `,` the text is unchanged. |
| CartSlice.CleanPriceFirstComma | cart/store/cartSlice.ts:5-7 | The cleaned price is the stripped text with its first `,` turned into `.`. |
| CartSlice.CleanPriceNoComma | cart/store/cartSlice.ts:5-7 | A price without `,` cleans to the stripped text. |
| CartSlice.CleanPriceShape | cart/store/cartSlice.ts:6 | The cleaned price holds only digits, `-`, `,` and `.`. It has one `.` if the input had a `,` and none otherwise, and then one `,` fewer than the input. |
| CartSlice.CleanPriceRestores | cart/store/cartSlice.ts:6 | Turning the `.` back into `,` gives exactly the characters the regex kept, so the cleaner loses nothing else. |
| CartSlice.CleanPriceKeepsDigits | cart/store/cartSlice.ts:6 | Every digit of the price is kept, in order. |
| CartSlice.CleanPriceExamples | cart/store/cartSlice.ts:5-7 | `9.99` becomes `999`, `1,299` becomes `1.299`, `2,50` becomes `2.50`, `TL` becomes the empty string, and `1,2,5` becomes `1.2,5`. |
| CartSlice.PriceTotalNaN | cart/store/cartSlice.ts:58 | The price total is NaN if and only if some line's cleaned price does not parse. |
| CartSlice.LoadFromStorage | cart/store/cartSlice.ts:20-26 | Loading fails exactly in a browser with a malformed entry. It yields the stored list when one is stored, and `[]` otherwise (including outside a browser). |
| CartSlice.SaveToStorage | cart/store/cartSlice.ts:10-18 | In a browser the list is stored and one `cart-updated` event carries it with its quantity sum. Outside a browser nothing changes. |
| CartSlice.CartStore.Create | cart/store/cartSlice.ts:28-36 | No store exists exactly when the stored entry is malformed in a browser. Otherwise the store holds the loaded list with agreeing totals, is not loading and has no error. |
| CartSlice.CartStore.AddToCart | cart/store/cartSlice.ts:43-63 | The items become the increment-or-append result. The totals stay in agreement with the items, the list is persisted with one event, and the error is cleared. |
| CartSlice.CartStore.RemoveFromCart | cart/store/cartSlice.ts:65-70 | The items become the list without the id, the totals agree, and the list is persisted even when nothing was removed. |
| CartSlice.CartStore.UpdateQuantity | cart/store/cartSlice.ts:72-87 | The items become the updated list and the totals agree. The list is persisted only when the id was present; otherwise storage and events are untouched. |
| CartSlice.CartStore.ClearCart | cart/store/cartSlice.ts:89-94 | Empty items, zero totals, and `[]` persisted. |
| CartSlice.CartStore.SetLoading | cart/store/cartSlice.ts:96-98 | Only the loading flag changes. |
| CartSlice.CartStore.SetError | cart/store/cartSlice.ts:100-102 | Only the error changes. |
| CartSlice.CartStore.LoadCartFromStorage | cart/store/cartSlice.ts:104-109 | On success the items are replaced by the stored list with agreeing totals, and nothing is persisted. When the stored text does not parse, the state is unchanged. |
| CartSlice.ReducersKeepLinesWellFormed | cart/store/cartSlice.ts:43-94 | Add, remove and update each preserve unique ids and positive quantities. |
| UseCart.CartHook.constructor | home/hooks/useCart.ts:27-28 | The counter starts at 0 and loading at false. |
| UseCart.CartHook.LoadCartCount | home/hooks/useCart.ts:32-54 | In a browser with a stored list, the counter becomes its quantity sum. In every other case the counter is kept. |
| UseCart.CartHook.HandleCartUpdate | home/hooks/useCart.ts:59-62 | The counter becomes the event's count, or 0 when the count is missing. |
| UseCart.CartHook.AddToCart | home/hooks/useCart.ts:74-124 | Outside a browser nothing changes. In a browser, loading ends false. A malformed entry writes nothing. Otherwise the merged list is stored, the counter becomes its quantity sum, and one event carries both. |
| CartApi.FindApiIndex | cart/app/api/cart/route.ts:31 | Returns the first line whose id is `===` to the request's. Returns None exactly when no line's id is. |
| CartApi.CartRoute.constructor | cart/app/api/cart/route.ts:13 | The cart starts empty. |
| CartApi.CartRoute.Get | cart/app/api/cart/route.ts:16-18 | Status 200 with the whole cart; nothing changes. |
| CartApi.CartRoute.Post | cart/app/api/cart/route.ts:21-42 | Unparseable text or a `null` body (whose `.name` throws) gives 400 "Geçersiz istek.". A falsy name or price gives 400 "Ürün adı ve fiyatı zorunludur.". Neither changes the cart. A valid body is merged and answered with 201 and the whole cart. |
| CartApi.AcceptedIsObject | cart/app/api/cart/route.ts:23-28 | Only an object can pass validation. A string, number, boolean or array body is refused with the "required" message rather than caught. |
| CartApi.ValidationExamples | cart/app/api/cart/route.ts:26-28 | A non-empty name and price string pass; a price of `0` or `""` is refused. |
| CartApi.MergeEffect | cart/app/api/cart/route.ts:31-33 | When some line's id is `===` to the request's, the first such line gets `(quantity \|\| 1) + 1`, so 0 becomes 2. The length and every other line are kept. |
| CartApi.MergeAppends | cart/app/api/cart/route.ts:34-36 | When no line matches, one line is appended. It carries every field of the body except `quantity`, with quantity 1, whatever quantity was sent. |
| CartApi.CompositeIdAppends | cart/app/api/cart/route.ts:31-36 | An array or object id is never `===` to a stored one, so such a POST always appends. |
| CartApi.MergeKeepsInvariant | cart/app/api/cart/route.ts:31-36 | A valid POST grows the cart by at most one line, never creates two `===` ids, and keeps quantities at least 1. |
| UrlCartLoader.Payload | cart/app/components/URLCartLoader.tsx:49-55 | The add payload is the URL item without its quantity: adding it as new gives the item with quantity 1. |
| UrlCartLoader.LoadCartFromUrl | cart/app/components/URLCartLoader.tsx:19-84 | With no data, or data that fails to decode, nothing is dispatched or changed. A non-list value clears the cart and stops. A list is cleared and then replayed unit by unit, and the store ends at the replay. In a browser the clear stores `[]` and emits one event; each add stores its list and emits one event, so storage ends at the replay. `loading` is never changed; `error` is kept unless an add ran, and then it is cleared. |
| UrlCartLoader.AddItems | cart/app/components/URLCartLoader.tsx:45-57 | The outer loop dispatches exactly the per-item adds, in order, and leaves the store at the replay of the list, with `loading` kept and `error` set to none when some item had a positive quantity, kept otherwise. |
| UrlCartLoader.AddUnits | cart/app/components/URLCartLoader.tsx:48-56 | The inner loop dispatches one add per unit (none for a quantity of 0 or less) and leaves the store at that many adds, with `loading` kept and `error` set to none when the quantity is positive, kept otherwise. |
| UrlCartLoader.AddNNew | cart/app/components/URLCartLoader.tsx:48-56 | `n >= 1` adds of a new product make one appended line of quantity `n`. |
| UrlCartLoader.AddNQuantityOf | cart/app/components/URLCartLoader.tsx:48-56 | `n` adds put `max(n, 0)` units on the payload's id and none on any other id. |
| UrlCartLoader.AddNIds | cart/app/components/URLCartLoader.tsx:48-56 | At least one add puts the id in the list, and the quantity sum grows by `max(n, 0)`. |
| UrlCartLoader.AddNKeeps | cart/app/components/URLCartLoader.tsx:48-56 | Repeated adds keep ids unique and quantities positive. |
| UrlCartLoader.AddNExisting | cart/app/components/URLCartLoader.tsx:48-56 | Adds of an id already present change no line's id and add no line. |
| UrlCartLoader.ReplayReconstructs | cart/app/components/URLCartLoader.tsx:42-57 | A cart with distinct ids and positive quantities is rebuilt exactly by the clear-then-add replay. |
| UrlCartLoader.ReplayCounts | cart/app/components/URLCartLoader.tsx:45-57 | The number of dispatched adds equals the positive units in the list, and so does the rebuilt cart's quantity sum. |
| UrlCartLoader.ReplayMerges | cart/app/components/URLCartLoader.tsx:45-57 | For any list, the rebuilt cart has unique ids and positive quantities. Its ids are those with a positive quantity, and each id's quantity is the sum of its positive quantities. |
| UrlCartLoader.ReplayOrder | cart/app/components/URLCartLoader.tsx:45-57 | The rebuilt cart lists its lines in the order their ids first appear with a positive quantity. |
| Slug.FoldChar | home/app/api/products/route.ts:20-25 | The six Turkish letters map to ASCII letters; every other character is unchanged. |
| Slug.CollapseRuns | home/app/api/products/route.ts:26 | The result is empty exactly when the input is, has only `[a-z0-9-]`, never `--`, and starts with the input's first character or with `-`. |
| Slug.CollapseRunsRun | home/app/api/products/route.ts:26 | A maximal run outside `[a-z0-9]`, of any length, becomes exactly one `-`: it is neither dropped nor split. |
| Slug.TrimStart | home/app/api/products/route.ts:27 | Removes exactly the leading `-` characters. |
| Slug.TrimEnd | home/app/api/products/route.ts:27 | Removes exactly the trailing `-` characters. |
| Slug.NameToSlug | home/app/api/products/route.ts:17-28 | The result is a slug: only `[a-z0-9-]`, no `-` at either end, no `--`. |
| Slug.NameToSlugIdempotent | shared-components/product/index.ts:94-105 | Slugging a slug changes nothing, and the fixed points are exactly the slugs. |
| Slug.NameToSlugKeepsAlnums | shared-components/product/index.ts:94-105 | Every letter and digit left after lower-casing and folding reaches the slug, in order. |
| Slug.SmartWatchSlug | home/app/api/products/route.ts:17-28 | "Akıllı Saat" becomes `akilli-saat`. |
| ProductImages.TableComplete | shared-components/product/index.ts:14-65 | Every configured slug has a main image, a thumbnail and a non-empty gallery. |
| ProductImages.LookupsAgree | shared-components/product/index.ts:70-89 | A configured slug gets the table's main image, thumbnail and gallery. Any other slug gets the placeholder, the placeholder and an empty gallery. Image answers are never empty. |
| ProductImages.GetProductImageWithFallback | shared-components/product/index.ts:110-122 | A non-empty explicit URL other than the placeholder wins. Otherwise the name's slug is looked up. The answer is never empty. |
| ProductImages.TurkishNameFallsBack | shared-components/product/index.ts:110-122 | "Akıllı Saat" without an explicit URL gets the placeholder, because its slug is not a table key. |
| ProductsApi.GetProductImageUrl | home/app/api/products/route.ts:31-41 | The URL is the smart watch image exactly when the slug is a key of the map; otherwise it is the SVG placeholder. |
| ProductsApi.ImageUrlAgrees | home/app/api/products/route.ts:31-41 | For every name whose slug is not `constructor`, the route as written returns the own-key answer. |
| ProductsApi.ConstructorNameReturnsFunction | home/app/api/products/route.ts:35-40 | For the name `constructor`, the route as written returns an inherited function instead of a path. |
| ProductsApi.SmartWatchImageUrl | home/app/api/products/route.ts:31-41 | "Akıllı Saat" finds the real image through its Turkish slug. |
| ProductsApi.FilterCategory | home/app/api/products/route.ts:130-134 | A product is kept if and only if its category equals the query's, ignoring case. |
| ProductsApi.FilterStock | home/app/api/products/route.ts:137-142 | A product is kept if and only if its `inStock` equals the wanted value; a missing `inStock` never matches. |
| ProductsApi.FilteredMeaning | home/app/api/products/route.ts:129-142 | The filters keep exactly the catalogue products that match the query. An `inStock` other than `true` selects out-of-stock products. |
| ProductsApi.FilteredAppend | home/app/api/products/route.ts:129-142 | Filtering works product by product, so catalogue order is kept. |
| ProductsApi.Limit | home/app/api/products/route.ts:145-150 | The limit always keeps a prefix of the list. |
| ProductsApi.LimitMeaning | home/app/api/products/route.ts:145-150 | A limit `n >= 0` keeps the first `n` products. A negative `n` drops the last `\|n\|`. An absent, empty or non-numeric limit keeps everything. |
| ProductsApi.SliceEnd | home/app/api/products/route.ts:148 | The end index `slice(0, n)` uses never exceeds the length. |
| ProductsApi.Insert | home/app/api/products/route.ts:153-155 | One sort step adds exactly one element to the multiset. |
| ProductsApi.SortNewestFirst | home/app/api/products/route.ts:153-155 | The sort is a permutation. |
| ProductsApi.SortStable | home/app/api/products/route.ts:153-155 | With every product dated, the sort is stable: the products of each date keep their catalogue order. |
| ProductsApi.SortSorted | home/app/api/products/route.ts:153-155 | With every product dated, no product precedes a strictly newer one. |
| ProductsApi.Get | home/app/api/products/route.ts:120-165 | The response succeeds and `total` is the length of `data`. The data is the category, stock and limit pipeline, sorted. |
| ProductsApi.GetResult | home/app/api/products/route.ts:127-163 | The data is a permutation of a prefix of the filtered catalogue and contains only matching catalogue products. It is newest first when every product is dated. |
| Sitemap.ProductRoutes | home/app/sitemap.ts:29-34 | One weekly entry per product at priority 0.7, in input order. |
| Sitemap.CategoryRoutes | home/app/sitemap.ts:38-43 | One weekly entry per category at priority 0.6, in order. |
| Sitemap.DistinctMeaning | home/app/sitemap.ts:37 | `Array.from(new Set(...))` holds each category exactly once, in first-appearance order. |
| Sitemap.SitemapLayout | home/app/sitemap.ts:5-45 | The sitemap has 2 + products + distinct categories entries. The home page comes first at priority 1.0, then the cart at 0.8, then the product URLs, then the category URLs. |
| Sitemap.SitemapCategories | home/app/sitemap.ts:37-43 | A category is listed if and only if some product has it, and none is listed twice. |
| Sitemap.ProductUrlsDistinct | home/app/sitemap.ts:29-34 | Products with different ids get different URLs. |

## Left out

- Browser and runtime APIs are abstract. `localStorage` is represented by what
  `JSON.parse` makes of the stored text, an event by its `detail`, and
  `atob`/`decodeURIComponent`/`JSON.parse` in the URL loader by a given decoding
  function. `URLSearchParams` and `encodeURIComponent` are parameters.
- Decoded URL items and stored items are taken to be well-formed cart lines. A
  non-numeric `item.quantity` and lines with missing fields are not modelled.
- `window.history.replaceState` and all console logging are left out; they do not
  change the cart.
- The URL loader's no-data branch only reads storage in order to log it, so it
  is modelled as "no change".
- Listener registration and removal for `cart-updated`, React state scheduling,
  the Redux store wiring, the provider components and concurrency between the two
  applications are left out.
- `parseFloat` and `Date` parsing are given functions. IEEE rounding, infinities
  and overflow in the price total are not modelled (`Float` is NaN or an exact
  real).
- ProductsApi.SortNewestFirst: modelled as an insertion sort that reads a NaN
  comparison as "equal", on a copy of the list rather than in place. With
  undated products the comparator is not a consistent order, and the engine's
  result is then implementation-defined. Newest-first order and stability are
  proved only when every product is dated.
- The GET response's `timestamp`, the artificial 100 ms delay, and the 500 error
  path (unreachable for the mock catalogue) are left out.
- `ProductsApi.Product` leaves out `rating` and `description`: no catalogue
  operation reads them. (The cart route, by contrast, keeps every field of the
  posted object.) The mock catalogue's data is not reproduced; GET takes the
  catalogue as a parameter.
- CartApi.CartRoute.Post: a JSON number is an exact real, and keys inherited
  through `Object.prototype` are not modelled; `id`, `name` and `price` are not
  among them. Key order in the stored object is not kept.
- `Js.ToLower` covers ASCII and the Turkish capitals Ç Ğ Ö Ş Ü. `İ` (which
  lower-cases to two characters) and other non-ASCII letters are left unchanged.
- `home/lib/products.ts` (the client fetch and `getAllProducts`) is not part of
  this model; the sitemap takes the product list as a parameter, and the
  build-time `new Date()` values are one constant.
- UrlCartLoader.AddUnits: the loop counts up to the quantity clamped at zero.
  This is the same number of passes as `i < item.quantity` for an integer
  quantity.

## Findings

| source | as written | input that shows it | evidently intended | confidence | as-written member | corrected member |
|---|---|---|---|---|---|---|
| home/app/api/products/route.ts:31-41 | `imageMap[slug] \|\| '/placeholder.svg'` looks the slug up through the prototype chain of an object literal | a product named `constructor`: its slug is `constructor`, and `imageMap['constructor']` is the inherited `Object` function, which is truthy and is returned in place of a URL string | only the map's own keys count, so any other slug gets `/placeholder.svg` | not executed | ProductsApi.ConstructorNameReturnsFunction | ProductsApi.GetProductImageUrl |
