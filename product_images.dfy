/** The shared product-image helpers: a fixed table of image paths per slug and
    lookups that fall back to a placeholder. */
module ProductImages {
  import opened Js
  import opened Slug

  /** `ProductImagePaths`. */
  datatype ImagePaths = ImagePaths(main: string, gallery: seq<string>, thumbnail: string)

  const Placeholder: string := "/placeholder.jpg"

  /** `PRODUCT_IMAGES`. A key outside the table, including one that names a
      property every object inherits (`constructor`, `toString`, ...), yields no
      `main`, `gallery` or `thumbnail`, so it is absent here. */
  const ProductImageTable: map<string, ImagePaths> := map[
    "smart-watch" := SmartWatchImages,
    "wireless-headphones" := WirelessHeadphonesImages,
    "mechanical-keyboard" := MechanicalKeyboardImages,
    "gaming-mouse" := GamingMouseImages,
    "smartphone" := SmartphoneImages,
    "tablet" := TabletImages
  ]

  const SmartWatchImages: ImagePaths := ImagePaths(
    "/products/smart-watch/main.jpg",
    ["/products/smart-watch/gallery-1.png",
     "/products/smart-watch/gallery-2.jpg",
     "/products/smart-watch/gallery-3.jpg"],
    "/products/smart-watch/thumbnail.jpg")

  const WirelessHeadphonesImages: ImagePaths := ImagePaths(
    "/products/wireless-headphones/main.jpg",
    ["/products/wireless-headphones/gallery-1.jpg",
     "/products/wireless-headphones/gallery-2.jpg"],
    "/products/wireless-headphones/thumbnail.jpg")

  const MechanicalKeyboardImages: ImagePaths := ImagePaths(
    "/products/mechanical-keyboard/main.jpg",
    ["/products/mechanical-keyboard/gallery-1.jpg",
     "/products/mechanical-keyboard/gallery-2.jpg"],
    "/products/mechanical-keyboard/thumbnail.jpg")

  const GamingMouseImages: ImagePaths := ImagePaths(
    "/products/gaming-mouse/main.jpg",
    ["/products/gaming-mouse/gallery-1.jpg",
     "/products/gaming-mouse/gallery-2.jpg"],
    "/products/gaming-mouse/thumbnail.jpg")

  const SmartphoneImages: ImagePaths := ImagePaths(
    "/products/smartphone/main.jpg",
    ["/products/smartphone/gallery-1.jpg",
     "/products/smartphone/gallery-2.jpg",
     "/products/smartphone/gallery-3.jpg"],
    "/products/smartphone/thumbnail.jpg")

  const TabletImages: ImagePaths := ImagePaths(
    "/products/tablet/main.jpg",
    ["/products/tablet/gallery-1.jpg",
     "/products/tablet/gallery-2.jpg"],
    "/products/tablet/thumbnail.jpg")

  /** `getProductImage(slug)`: `config?.main || '/placeholder.jpg'`. */
  function GetProductImage(slug: string): string
  {
    if slug in ProductImageTable && ProductImageTable[slug].main != "" then ProductImageTable[slug].main
    else Placeholder
  }

  /** `getProductGallery(slug)`: `config?.gallery || []` (an array is truthy even
      when empty). */
  function GetProductGallery(slug: string): seq<string>
  {
    if slug in ProductImageTable then ProductImageTable[slug].gallery else []
  }

  /** `getProductThumbnail(slug)`: `config?.thumbnail || config?.main || '/placeholder.jpg'`. */
  function GetProductThumbnail(slug: string): string
  {
    if slug in ProductImageTable && ProductImageTable[slug].thumbnail != "" then ProductImageTable[slug].thumbnail
    else if slug in ProductImageTable && ProductImageTable[slug].main != "" then ProductImageTable[slug].main
    else Placeholder
  }

  /** `getProductImageWithFallback(name, explicitUrl)`: a non-empty explicit URL
      other than the placeholder wins; otherwise the name's slug is looked up. */
  function GetProductImageWithFallback(productName: string, explicitUrl: Option<string>): (r: string)
    ensures r != ""
    ensures explicitUrl.Some? && explicitUrl.value != "" && explicitUrl.value != Placeholder ==>
      r == explicitUrl.value
    ensures !(explicitUrl.Some? && explicitUrl.value != "" && explicitUrl.value != Placeholder) ==>
      r == GetProductImage(NameToSlug(productName))
  {
    if explicitUrl.Some? && explicitUrl.value != "" && explicitUrl.value != Placeholder then explicitUrl.value
    else GetProductImage(NameToSlug(productName))
  }

  // ---------------------------------------------------------------- properties

  /** A configured entry is complete: a main image, a thumbnail and at least one
      gallery image, so none of the `||` fallbacks is taken for it. */
  predicate Complete(p: ImagePaths)
  {
    p.main != "" && p.thumbnail != "" && p.gallery != []
  }

  lemma {:induction false} TableComplete(slug: string)
    requires slug in ProductImageTable
    ensures Complete(ProductImageTable[slug])
  {
    assert ProductImageTable[slug] in ProductImageTable.Values;
  }

  /** For a configured slug every lookup answers from the table; for any other slug
      they answer the placeholder, an empty gallery and the placeholder. The image
      lookups never answer an empty string. */
  lemma LookupsAgree(slug: string)
    ensures slug in ProductImageTable ==>
      && GetProductImage(slug) == ProductImageTable[slug].main
      && GetProductThumbnail(slug) == ProductImageTable[slug].thumbnail
      && GetProductGallery(slug) == ProductImageTable[slug].gallery != []
    ensures slug !in ProductImageTable ==>
      GetProductImage(slug) == Placeholder && GetProductThumbnail(slug) == Placeholder && GetProductGallery(slug) == []
    ensures GetProductImage(slug) != "" && GetProductThumbnail(slug) != ""
  {
    if slug in ProductImageTable {
      TableComplete(slug);
    }
  }

  /** The catalogue's Turkish names do not reach the table: "Akıllı Saat" becomes
      `akilli-saat`, which is not a key, so only the placeholder is found. */
  lemma TurkishNameFallsBack()
    ensures GetProductImageWithFallback("Ak\U{0131}ll\U{0131} Saat", None) == Placeholder
  {
    SmartWatchSlug();
    AkilliSaatNotAKey();
  }

  lemma AkilliSaatNotAKey()
    ensures "akilli-saat" !in ProductImageTable
  {
    assert "akilli-saat"[0] != "smart-watch"[0];
  }
}
