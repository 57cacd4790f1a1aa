# CocoManthra catalog core in Dafny

This project models the data layer and two catalog pages of the CocoManthra storefront. The storefront is a
React single-page shop for handmade coconut products, backed by a hosted Postgres service.

- **The product context** (`src/context/ProductContext.tsx`) holds the store's state: products,
  collections, site settings, a loading flag and an error message. It offers:
  - `loadData`, which reads the `collections`, `products` and `site_settings` tables and rebuilds the state;
  - the validators for the two settings payloads (hero product and brand settings);
  - the row-to-record converters;
  - the write operations (`addProduct` … `updateSiteSettings`);
  - the read accessors (`getProductById`, `getProductsByCollection`, `searchProducts`, …).

  The store is the class `Store.CatalogStore`. Its fields are the React state. Its ghost field `updates`
  records the state-setter calls of a load, in order. The outcome of each remote read is a parameter of
  `LoadData`. Each write operation returns the request it would send (`Store.WriteRequest`) or the error it
  throws before sending.
- **The product detail page** (`src/pages/ProductDetail.tsx`) covers:
  - which of its three states the page shows;
  - the list of up to four related products;
  - the WhatsApp order message and link.
- **The collection detail page** (`src/pages/CollectionDetail.tsx`) covers:
  - how the route's collection name is resolved;
  - which of its three states the page shows;
  - the product count, featured count and price range it displays.

Modules:
- `Wrappers`: Option and Result.
- `Json`: untyped values and rows, JavaScript truthiness and `===`.
- `Seqs`: find, filter, slice, min and max.
- `Text`: ASCII `toLowerCase`, `trim` and `includes`.
- `Catalog`: records, validators and converters.
- `Queries`: the read accessors.
- `Store`: the load routine and the writes.
- `ProductDetailPage` and `CollectionDetailPage`: the two pages.

## Model

| member | source | states |
|---|---|---|
| Catalog.MissingHeroFields | src/context/ProductContext.tsx:69-75 | The list of missing fields is empty exactly when the payload has all seven required members |
| Catalog.ValidateHeroProduct | src/context/ProductContext.tsx:62-94 | Accepts exactly an object with string `id`, `title`, `description`, `image`, `ctaText`, `ctaLink` and a numeric `price`; what it accepts carries those seven members |
| Catalog.ValidateBrandSettings | src/context/ProductContext.tsx:97-117 | Accepts exactly an object whose `brandName` and `tagline` are strings, and returns just that pair |
| Catalog.HeroRoundTrip | src/context/ProductContext.tsx:62-94 | A complete hero record, written as a payload, validates back to itself |
| Catalog.BrandRoundTrip | src/context/ProductContext.tsx:97-117 | A brand pair, written as a payload, validates back to itself |
| Catalog.HeroWithoutNumericPriceRejected | src/context/ProductContext.tsx:69-87 | A hero payload without `price`, or with a string `price`, is rejected as a whole |
| Catalog.DbCollectionToCollection | src/context/ProductContext.tsx:140-153 | id and creation time copied; string text columns kept; absent or falsy text columns become "" |
| Catalog.CollectionNameFor | src/context/ProductContext.tsx:122-129 | Gives the name of the first collection whose id is `===` the product's `collection_id`. Gives "Unknown" when no collection has that id or the name is empty |
| Catalog.DbProductToProduct | src/context/ProductContext.tsx:120-137 | Each member as its column with its default (text "", price 0, featured by truthiness). The collection name is resolved by the first id match, else "Unknown" |
| Queries.ProductById | src/context/ProductContext.tsx:466-468 | None exactly when no product has that id; otherwise the first product that does |
| Queries.CollectionById | src/context/ProductContext.tsx:470-472 | None exactly when no collection has that id; otherwise the first collection that does |
| Queries.ProductsByCollection | src/context/ProductContext.tsx:474-479 | "all" gives every product. Any other name gives exactly the products whose collection equals it ignoring case |
| Queries.ProductsByCollectionIgnoresCase | src/context/ProductContext.tsx:476-478 | Names equal up to letter case select the same products (neither being "all") |
| Queries.ProductsByCollectionKeepsOrder | src/context/ProductContext.tsx:474-479 | Selection distributes over concatenation, so catalog order is kept |
| Queries.AllSentinelIsExact | src/context/ProductContext.tsx:475-478 | "all" returns every list whole. "ALL" is an ordinary name: it returns a list whole exactly when every product's collection lower-cases to "all" |
| Queries.FeaturedProducts | src/context/ProductContext.tsx:481-483 | Exactly the featured products |
| Queries.FeaturedProductsKeepsOrder | src/context/ProductContext.tsx:481-483 | The featured list keeps catalog order |
| Queries.SearchProducts | src/context/ProductContext.tsx:485-494 | A blank query (only white space) gives every product. Otherwise it gives exactly the products whose lower-cased name, description or collection contains the lower-cased, untrimmed query |
| Queries.SearchProductsKeepsOrder | src/context/ProductContext.tsx:489-493 | Search results keep catalog order |
| Queries.BlankIgnoresCase | src/context/ProductContext.tsx:486-488 | Queries that lower-case alike are blank (only white space) together |
| Queries.SearchProductsIgnoresCase | src/context/ProductContext.tsx:486-493 | Queries that lower-case alike find the same products |
| Text.TrimEmptyIff | src/context/ProductContext.tsx:486 | `trim()` is empty exactly when every character is ECMAScript white space |
| Text.ContainsIff | src/context/ProductContext.tsx:490-492 | `includes` holds exactly when the needle occurs at some offset |
| Store.FindSetting | src/context/ProductContext.tsx:198-199 | None exactly when no row's `key` is `===` the key; otherwise the first row that matches |
| Store.HeroFromSettings | src/context/ProductContext.tsx:198-210 | A hero record exactly when the first `hero_product` row's value is a hero payload, and then its validation |
| Store.BrandFromSettings | src/context/ProductContext.tsx:199-218 | A brand pair exactly when the first `brand_settings` row's value is a brand payload, and then its validation |
| Store.MergedSettings | src/context/ProductContext.tsx:201-222 | The hero record is the previous one or the one the rows provide; the brand name and tagline are both the previous ones or both the pair the rows provide |
| Store.ErrorMessage | src/context/ProductContext.tsx:227 | The message of a thrown `Error`; "Failed to load data" for any other thrown value |
| Store.Thrown | src/context/ProductContext.tsx:167-184 | Nothing is thrown exactly when both table reads succeed; otherwise the collections read's error if it failed, else the products read's |
| Store.ConvertCollections | src/context/ProductContext.tsx:172 | One collection per row, in order, each the conversion of its row |
| Store.ConvertProducts | src/context/ProductContext.tsx:186 | One product per row, in order, each the conversion of its row against the given collections |
| Store.MergeSettings | src/context/ProductContext.tsx:201-222 | The updater's result is `MergedSettings`: the previous settings with the validated hero record and brand pair overwritten |
| Store.MergeReplacesOnlyValidPayloads | src/context/ProductContext.tsx:204-219 | The hero record is replaced exactly when the first `hero_product` value is a hero payload, and then by its validation. Likewise for the brand pair; otherwise both stay |
| Store.BrandFieldsChangeTogether | src/context/ProductContext.tsx:213-218 | Brand name and tagline change only together, from one validated row |
| Store.HeroUntouchedWithoutHeroRow | src/context/ProductContext.tsx:198-210 | Rows without a `hero_product` key leave the hero record as it was |
| Store.WrittenHeroIsLoaded | src/context/ProductContext.tsx:429-443 | A complete hero record upserted as the first `hero_product` row is what the next load takes |
| Store.PartialHeroIsNotLoaded | src/context/ProductContext.tsx:429-436 | A partial hero payload (one required member missing) is written but ignored by the next load |
| Store.WrittenBrandIsLoaded | src/context/ProductContext.tsx:447-456 | A brand pair upserted as the first `brand_settings` row is what the next load takes |
| Store.FirstHeroRowDecides | src/context/ProductContext.tsx:198 | Only the first `hero_product` row counts: an invalid first row hides a valid later one |
| Store.FindByName | src/context/ProductContext.tsx:315 | None exactly when no collection has that exact name; otherwise the position of the first collection that does |
| Store.ProductFieldPatch | src/context/ProductContext.tsx:338-344 | The patch holds exactly the supplied members among name, price, description, image and featured, with their values |
| Store.CollectionIdKeepsFields | src/context/ProductContext.tsx:346-350 | Adding `collection_id` leaves the other patch members as they were |
| Store.AddedProductLoadsBack | src/context/ProductContext.tsx:313-327 | An inserted product row, once given an id and creation time, converts back to the product that was added |
| Store.FieldPatchOverwrites | src/context/ProductContext.tsx:338-344 | Merging the patch into a row overwrites exactly the supplied columns |
| Store.PatchedProductLoadsBack | src/context/ProductContext.tsx:336-355 | A row updated with the patch converts to the old product with just the supplied members changed; the collection name comes back as given |
| Store.AddedCollectionLoadsBack | src/context/ProductContext.tsx:378-386 | An inserted collection row converts back to the collection that was added |
| Store.PatchedCollectionLoadsBack | src/context/ProductContext.tsx:395-405 | A row updated with the patch converts to the old collection with just the supplied members changed |
| Store.CatalogStore.constructor | src/context/ProductContext.tsx:42-59 | Empty lists, the built-in settings, loading, no error |
| Store.CatalogStore.ApplySettingsRead | src/context/ProductContext.tsx:189-223 | A failed or empty settings read changes nothing. A read with rows merges them and records one settings update |
| Store.CatalogStore.ReadTables | src/context/ProductContext.tsx:161-223 | Throws the first failed table read's error. Collections are replaced unless their read failed; products only when both reads succeeded, resolved against the new collections. Settings are merged only when the load gets that far. The setter calls are recorded in order |
| Store.CatalogStore.LoadData | src/context/ProductContext.tsx:156-231 | Loading always ends. The error is `err.message` of the first failed table read, or "Failed to load data" when what it threw is not an `Error`; none when both reads succeed. Data and the ordered setter trace are as the try block leaves them |
| Store.CatalogStore.AddProduct | src/context/ProductContext.tsx:313-334 | Fails with "Collection not found" exactly when no collection has that exact name. Otherwise it inserts the six columns with the first such collection's id |
| Store.CatalogStore.UpdateProduct | src/context/ProductContext.tsx:336-362 | Fails exactly when a supplied collection name matches no collection. Otherwise it updates that id with a patch of exactly the supplied members, the collection resolved to the first match's id |
| Store.CatalogStore.DeleteProduct | src/context/ProductContext.tsx:364-376 | Deletes the `products` row with that id |
| Store.CatalogStore.AddCollection | src/context/ProductContext.tsx:378-393 | Inserts name, description and image into `collections` |
| Store.CatalogStore.UpdateCollection | src/context/ProductContext.tsx:395-412 | Updates that id with a patch of exactly the supplied members |
| Store.CatalogStore.DeleteCollection | src/context/ProductContext.tsx:414-427 | Deletes the `collections` row with that id |
| Store.CatalogStore.UpdateHeroProduct | src/context/ProductContext.tsx:429-443 | Upserts the given value as `hero_product`, resolving conflicts on `key` |
| Store.CatalogStore.UpdateSiteSettings | src/context/ProductContext.tsx:445-464 | Writes nothing unless a non-empty brand name or tagline is given. Otherwise it upserts both, each either the non-empty given value or the current one |
| ProductDetailPage.CurrentProduct | src/pages/ProductDetail.tsx:11 | None exactly when the route has no id or no product has it; otherwise `getProductById`'s first match, a product of the list |
| ProductDetailPage.RelatedProducts | src/pages/ProductDetail.tsx:135-137 | At most four products, each a product of the current one's collection other than itself. When fewer than four, no candidate is left out |
| ProductDetailPage.TakeFilterIsScan | src/pages/ProductDetail.tsx:136-137 | Slicing a filter to n equals scanning for the first n passing products |
| ProductDetailPage.RelatedFilterFusion | src/pages/ProductDetail.tsx:135-136 | The collection filter and the "other product" filter together are one filter by candidacy |
| ProductDetailPage.RelatedIsFirstFourCandidates | src/pages/ProductDetail.tsx:135-137 | The related list is exactly the first four candidates, in catalog order |
| ProductDetailPage.ProductDetail | src/pages/ProductDetail.tsx:11-137 | Skeleton exactly while loading or when an id matches no product; "Product Not Found" exactly when loading is over and no id is given; otherwise the first product with that id (as `getProductById` finds it) with its related list |
| ProductDetailPage.UnknownIdKeepsSkeleton | src/pages/ProductDetail.tsx:24-25 | After loading, an unknown id still shows the skeleton, never "Product Not Found" |
| ProductDetailPage.ProductDetailIntended | src/pages/ProductDetail.tsx:116-117 | Skeleton exactly while loading; "Product Not Found" exactly when loading is over and no product has the id; otherwise the first product with that id |
| ProductDetailPage.IntendedDiffersOnlyOnUnknownId | src/pages/ProductDetail.tsx:24-25 | The two readings differ exactly on an unknown id after loading |
| ProductDetailPage.ShownProductNotRelatedToItself | src/pages/ProductDetail.tsx:136 | No related product has the shown product's id |
| ProductDetailPage.RelatedSectionShownWithSibling | src/pages/ProductDetail.tsx:264 | The related section appears whenever some other product is a candidate |
| ProductDetailPage.OrderMessage | src/pages/ProductDetail.tsx:140-150 | The message starts with the fixed greeting and is exactly as long as the fixed pieces and the product's name, price text, collection and description together |
| ProductDetailPage.WhatsAppUrl | src/pages/ProductDetail.tsx:152 | The link is the fixed wa.me prefix followed by the encoded message |
| ProductDetailPage.OrderMessageMentionsProduct | src/pages/ProductDetail.tsx:140-150 | The message contains the product's name, price text, collection and description |
| CollectionDetailPage.DecodedName | src/pages/CollectionDetail.tsx:11 | "" when the route has no name or an empty one; otherwise the decoded route name |
| CollectionDetailPage.Prices | src/pages/CollectionDetail.tsx:179 | One price per product, in order |
| CollectionDetailPage.PriceRangeOf | src/pages/CollectionDetail.tsx:174-184 | No range for an empty list. Otherwise a low of at most the high, both the prices of listed products, with every price between them |
| CollectionDetailPage.CollectionDetail | src/pages/CollectionDetail.tsx:11-184 | Skeleton exactly while loading. "Collection Not Found" exactly when loading is over and no collection has the decoded name exactly. Otherwise: the first such collection; the products of `getProductsByCollection`; their count; the featured count (at most the count); the price range |
| CollectionDetailPage.MissingDespiteMatchingProducts | src/pages/CollectionDetail.tsx:11-83 | With no exact name match the page is "Collection Not Found", even though the case-insensitive product filter finds products |
| CollectionDetailPage.CollectionNamedAllCountsEverything | src/pages/CollectionDetail.tsx:13 | A collection named "all" shows a count of every product in the catalog |
| CollectionDetailPage.AllFeaturedIff | src/pages/CollectionDetail.tsx:159-168 | The featured count equals the product count exactly when every listed product is featured |

## Findings

| source | as written | input that shows it | evidently intended | confidence | as-written member | corrected member |
|---|---|---|---|---|---|---|
| src/pages/ProductDetail.tsx:25 | The skeleton guard (loading, or no product while an id is given) shows the skeleton for any id that matches no product, even after loading; "Product Not Found" is reached only with no id | loading over, a route id that no product has | The comment at line 116: "Product Not Found" once loading is complete and the product does not exist | medium, not executed | ProductDetailPage.UnknownIdKeepsSkeleton | ProductDetailPage.ProductDetailIntended |

The as-written branch is `ProductDetailPage.ProductDetail`. `ProductDetailPage.IntendedDiffersOnlyOnUnknownId` shows that the two readings differ on exactly these inputs.

## Left out

- Remote I/O is out of the model: the hosted database client, its queries, ordering (`order('name')`,
  `order('created_at')`) and responses. Each read's outcome is a parameter (`Store.Fetch`), already in the
  order the service returns. Each write returns the request it would send, not the service's reply. A write
  the service rejects is not modelled.
- Not modelled: the realtime subscriptions, `setupBuildTriggers`, the effect that runs the first load, and
  the unmount cleanup. Overlapping loads are not modelled; each `LoadData` call runs to completion.
  `refreshData` is `loadData` under another name, so `LoadData` models it.
- React rendering, routing, scrolling, navigation, `window.open` and all markup and styling are out of the
  model. The pages are functions of the store's state.
- Console logging is out of the model.
- `encodeURIComponent` and `decodeURIComponent` are function parameters, and so is the conversion of a
  number to text in the order message.
- CollectionDetailPage.DecodedName: the `decode` parameter is total. `decodeURIComponent` throws a `URIError`
  on a malformed percent sequence in the route, and then the collection page throws instead of showing
  "Collection Not Found". The model has no such case.
- Number formatting (`toFixed(2)` for the displayed prices) is out of the model.
- `Text.Lower` folds ASCII letters only, where JavaScript's `toLowerCase` folds all of Unicode.
- Numbers are reals: NaN, Infinity and -0 do not exist in the model.
- Catalog.DefaultSettings: the source's default hero image literal spans a raw line break inside a quoted
  string. The model keeps the URL up to the break.
- Catalog.ValidateHeroProduct: returns only the seven hero members. The source returns the payload object
  itself, with any extra members it carries.
- Catalog.DbProductToProduct: a truthy value that is not a string (or, for `price`, not a number) in a text
  column gives the default in the model. The source would copy that value through.
- Catalog.DbCollectionToCollection: a truthy value that is not a string in the `name`, `description` or
  `image` column gives "" in the model. The source's `|| ''` would copy that value through.
- Store.CatalogStore.LoadData: the `updates` trace records the order of the setter calls, not the renders
  React would schedule between them.
- Store.CatalogStore.UpdateHeroProduct: the `hero_product` upsert names `key` as its conflict target. The
  `brand_settings` upsert in `updateSiteSettings` names none. Both are modelled as written.
- src/pages/Collections.tsx and src/components/Layout/Footer.tsx are not part of this model.
