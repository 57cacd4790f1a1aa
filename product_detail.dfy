/**
 * The logic of the product detail page: which of its three states it shows
 * (loading skeleton, "Product Not Found", the product), the related-products
 * list under the product, and the WhatsApp order link.  The page reads the
 * store's products and loading flag; the route's `id` parameter is an
 * optional string.
 */
module ProductDetailPage {
  import opened Wrappers
  import opened Json
  import opened Text
  import opened Seqs
  import opened Catalog
  import opened Queries

  /** The route parameter, read as a JavaScript condition: present and non-empty. */
  predicate RouteHasId(id: Option<string>) {
    id.Some? && id.value != ""
  }

  /** `id ? getProductById(id) : undefined`. */
  function CurrentProduct(products: seq<Product>, id: Option<string>): (r: Option<Product>)
    ensures r.None? <==> !RouteHasId(id) || forall i :: 0 <= i < |products| ==> products[i].id != Str(id.value)
    ensures r.Some? ==> r == ProductById(products, id.value) && r.value in products
  {
    if RouteHasId(id) then ProductById(products, id.value) else None
  }

  /** `p.id !== product.id`, the test that removes the current product from its related list. */
  predicate OtherProduct(current: Product, p: Product) {
    !StrictEquals(p.id, current.id)
  }

  /** The number of related products the page shows at most (`slice(0, 4)`). */
  const RelatedLimit: nat := 4

  /**
   * `getProductsByCollection(product.collection).filter(p => p.id !== product.id).slice(0, 4)`:
   * at most four products of the current product's collection, the current
   * one left out, in catalog order, and no further product of that collection
   * passed over while fewer than four were taken.
   */
  function RelatedProducts(products: seq<Product>, current: Product): (r: seq<Product>)
    ensures |r| <= RelatedLimit
    ensures forall i :: 0 <= i < |r| ==> r[i] in products && OtherProduct(current, r[i])
    ensures current.collection != "all" ==> forall i :: 0 <= i < |r| ==> InCollection(current.collection, r[i])
    ensures |r| < RelatedLimit ==>
              forall i :: 0 <= i < |products| && OtherProduct(current, products[i])
                          && (current.collection == "all" || InCollection(current.collection, products[i]))
                          ==> products[i] in r
  {
    var sameCollection := ProductsByCollection(products, current.collection);
    Take(Filter(sameCollection, (p: Product) => OtherProduct(current, p)), RelatedLimit)
  }

  /** A product is a related-product candidate: another product of the current one's collection ("all" admits every product). */
  predicate Candidate(current: Product, p: Product) {
    (current.collection == "all" || InCollection(current.collection, p)) && OtherProduct(current, p)
  }

  /**
   * An independent reading of the related list: walk the catalog in order and
   * keep candidates until `n` are kept.
   */
  function RelatedScan(products: seq<Product>, current: Product, n: nat): seq<Product>
    decreases |products|
  {
    if n == 0 || products == [] then []
    else if Candidate(current, products[0]) then [products[0]] + RelatedScan(products[1..], current, n - 1)
    else RelatedScan(products[1..], current, n)
  }

  /** Taking `n` from a filter is the same as scanning for the first `n` elements that pass. */
  lemma {:induction false} TakeFilterIsScan(products: seq<Product>, current: Product, n: nat)
    ensures Take(Filter(products, (p: Product) => Candidate(current, p)), n) == RelatedScan(products, current, n)
    decreases |products|
  {
    var f := Filter(products, (p: Product) => Candidate(current, p));
    if n == 0 || products == [] {
    } else {
      var rest := Filter(products[1..], (p: Product) => Candidate(current, p));
      TakeFilterIsScan(products[1..], current, if Candidate(current, products[0]) then n - 1 else n);
      if Candidate(current, products[0]) {
        assert f == [products[0]] + rest;
        if |rest| <= n - 1 {
          assert Take(f, n) == f;
        } else {
          assert Take(f, n) == [products[0]] + rest[..n - 1];
        }
      } else {
        assert f == rest;
      }
    }
  }

  /** The collection filter followed by the "other product" filter is one filter by `Candidate`. */
  lemma {:induction false} RelatedFilterFusion(products: seq<Product>, current: Product)
    ensures Filter(ProductsByCollection(products, current.collection), (p: Product) => OtherProduct(current, p))
            == Filter(products, (p: Product) => Candidate(current, p))
    decreases |products|
  {
    if current.collection == "all" {
      FilterCongruent(products, (p: Product) => OtherProduct(current, p), (p: Product) => Candidate(current, p));
    } else if products != [] {
      var inC := (p: Product) => InCollection(current.collection, p);
      assert ProductsByCollection(products, current.collection) == Filter(products, inC);
      assert ProductsByCollection(products[1..], current.collection) == Filter(products[1..], inC);
      RelatedFilterFusion(products[1..], current);
      FilterAppend(Filter([products[0]], inC), Filter(products[1..], inC), (p: Product) => OtherProduct(current, p));
      assert Filter(products, inC) == Filter([products[0]], inC) + Filter(products[1..], inC);
    }
  }

  /** The related list is exactly the first four candidates of the catalog, in order. */
  lemma RelatedIsFirstFourCandidates(products: seq<Product>, current: Product)
    ensures RelatedProducts(products, current) == RelatedScan(products, current, RelatedLimit)
  {
    RelatedFilterFusion(products, current);
    TakeFilterIsScan(products, current, RelatedLimit);
  }

  /** What the page renders. */
  datatype ProductView =
    | LoadingSkeleton
    | ProductNotFound
    | ProductShown(product: Product, related: seq<Product>)

  /**
   * The branch the page takes: the skeleton while loading, and also when an id
   * is given that matches no product; "Product Not Found" only once loading is
   * over and no id is given; the product otherwise.
   */
  function ProductDetail(products: seq<Product>, loading: bool, id: Option<string>): (v: ProductView)
    ensures v.LoadingSkeleton? <==> loading || (RouteHasId(id) && forall i :: 0 <= i < |products| ==> products[i].id != Str(id.value))
    ensures v.ProductNotFound? <==> !loading && !RouteHasId(id)
    ensures v.ProductShown? ==> !loading && RouteHasId(id) && v.product.id == Str(id.value) && v.product in products
    ensures v.ProductShown? ==> Some(v.product) == ProductById(products, id.value)
    ensures v.ProductShown? ==> v.related == RelatedProducts(products, v.product)
  {
    var product := CurrentProduct(products, id);
    if loading || (product.None? && RouteHasId(id)) then LoadingSkeleton
    else if !loading && product.None? then ProductNotFound
    else ProductShown(product.value, RelatedProducts(products, product.value))
  }

  /**
   * Once loading is over, an id that matches no product keeps the page on the
   * skeleton: the "Product Not Found" branch is reached only without an id.
   */
  lemma UnknownIdKeepsSkeleton(products: seq<Product>, id: string)
    requires id != ""
    requires forall i :: 0 <= i < |products| ==> products[i].id != Str(id)
    ensures ProductDetail(products, false, Some(id)).LoadingSkeleton?
    ensures !ProductDetail(products, false, Some(id)).ProductNotFound?
  {
  }

  /**
   * The branch as the page's own comments describe it: the skeleton only while
   * loading, and "Product Not Found" once loading is over and no product has
   * the id (or no id is given).
   */
  function ProductDetailIntended(products: seq<Product>, loading: bool, id: Option<string>): (v: ProductView)
    ensures v.LoadingSkeleton? <==> loading
    ensures v.ProductNotFound? <==>
              !loading && (!RouteHasId(id) || forall i :: 0 <= i < |products| ==> products[i].id != Str(id.value))
    ensures v.ProductShown? ==> !loading && RouteHasId(id) && v.product.id == Str(id.value) && v.product in products
    ensures v.ProductShown? ==> Some(v.product) == ProductById(products, id.value)
    ensures v.ProductShown? ==> v.related == RelatedProducts(products, v.product)
  {
    var product := CurrentProduct(products, id);
    if loading then LoadingSkeleton
    else if product.None? then ProductNotFound
    else ProductShown(product.value, RelatedProducts(products, product.value))
  }

  /** The two readings agree except on an unknown id after loading, where the intended page reports it. */
  lemma IntendedDiffersOnlyOnUnknownId(products: seq<Product>, loading: bool, id: Option<string>)
    ensures ProductDetail(products, loading, id) != ProductDetailIntended(products, loading, id) <==>
              !loading && RouteHasId(id) && forall i :: 0 <= i < |products| ==> products[i].id != Str(id.value)
  {
  }

  /** A shown product never lists itself among its related products. */
  lemma ShownProductNotRelatedToItself(products: seq<Product>, loading: bool, id: Option<string>)
    requires ProductDetail(products, loading, id).ProductShown?
    ensures var v := ProductDetail(products, loading, id);
            forall i :: 0 <= i < |v.related| ==> v.related[i].id != Str(id.value)
  {
    var v := ProductDetail(products, loading, id);
    forall i | 0 <= i < |v.related| ensures v.related[i].id != Str(id.value) {
      assert OtherProduct(v.product, v.related[i]);
    }
  }

  /** The "Related Products" section is rendered exactly when the related list is non-empty. */
  predicate ShowsRelatedSection(v: ProductView) {
    v.ProductShown? && |v.related| > 0
  }

  /** The section appears for a product with at least one other product in its collection. */
  lemma RelatedSectionShownWithSibling(products: seq<Product>, loading: bool, id: Option<string>, k: nat)
    requires ProductDetail(products, loading, id).ProductShown?
    requires k < |products|
    requires Candidate(ProductDetail(products, loading, id).product, products[k])
    ensures ShowsRelatedSection(ProductDetail(products, loading, id))
  {
    var v := ProductDetail(products, loading, id);
    if |v.related| < RelatedLimit {
      assert products[k] in v.related;
    }
  }

  // ---------------------------------------------------------------------------
  // WhatsApp order link
  // ---------------------------------------------------------------------------

  const WhatsAppPrefix := "https://wa.me/919248788585?text="

  // The fixed text of the order enquiry message, between the product's details.
  const MessageOpening := "Hi! I'm interested in ordering this product from CocoManthra:\n\n\U{1F334} *"
  const PriceLabel := "*\n\U{1F4B0} Price: \U{20B9}"
  const CollectionLabel := "\n\U{1F4E6} Collection: "
  const DescriptionLabel := "\n\n\U{1F4DD} Description: "
  const MessageClosing := "\n\nCould you please provide more details about availability, shipping, and payment options?\n\nThank you!"

  /**
   * The order enquiry message, with the product's name, price, collection and
   * description in their places.  `priceText` is the price as JavaScript
   * prints a number in a template literal.
   */
  function OrderMessage(p: Product, priceText: string): (m: string)
    ensures MessageOpening <= m
    ensures |m| == |MessageOpening| + |p.name| + |PriceLabel| + |priceText| + |CollectionLabel| + |p.collection|
                   + |DescriptionLabel| + |p.description| + |MessageClosing|
  {
    MessageOpening + (p.name + (PriceLabel + (priceText + (CollectionLabel + (p.collection
    + (DescriptionLabel + (p.description + MessageClosing)))))))
  }

  /**
   * The link `handleWhatsApp` opens: the fixed prefix followed by the encoded
   * message.  `encode` stands for `encodeURIComponent` and `numberText` for
   * the number-to-text conversion of the template literal.
   */
  function WhatsAppUrl(p: Product, encode: string -> string, numberText: real -> string): (url: string)
    ensures |WhatsAppPrefix| <= |url| && url[..|WhatsAppPrefix|] == WhatsAppPrefix
    ensures url[|WhatsAppPrefix|..] == encode(OrderMessage(p, numberText(p.price)))
  {
    WhatsAppPrefix + encode(OrderMessage(p, numberText(p.price)))
  }

  /** The message names the product, its price, its collection and its description. */
  lemma OrderMessageMentionsProduct(p: Product, priceText: string)
    ensures Contains(OrderMessage(p, priceText), p.name)
    ensures Contains(OrderMessage(p, priceText), priceText)
    ensures Contains(OrderMessage(p, priceText), p.collection)
    ensures Contains(OrderMessage(p, priceText), p.description)
  {
    var fromDescription := p.description + MessageClosing;
    var fromCollection := p.collection + (DescriptionLabel + fromDescription);
    var fromPrice := priceText + (CollectionLabel + fromCollection);
    var fromName := p.name + (PriceLabel + fromPrice);
    ContainsAtStart(p.name, PriceLabel + fromPrice);
    ContainsAfter(MessageOpening, fromName, p.name);
    ContainsAtStart(priceText, CollectionLabel + fromCollection);
    ContainsAfter(PriceLabel, fromPrice, priceText);
    ContainsAfter(p.name, PriceLabel + fromPrice, priceText);
    ContainsAfter(MessageOpening, fromName, priceText);
    ContainsAtStart(p.collection, DescriptionLabel + fromDescription);
    ContainsAfter(CollectionLabel, fromCollection, p.collection);
    ContainsAfter(priceText, CollectionLabel + fromCollection, p.collection);
    ContainsAfter(PriceLabel, fromPrice, p.collection);
    ContainsAfter(p.name, PriceLabel + fromPrice, p.collection);
    ContainsAfter(MessageOpening, fromName, p.collection);
    ContainsAtStart(p.description, MessageClosing);
    ContainsAfter(DescriptionLabel, fromDescription, p.description);
    ContainsAfter(p.collection, DescriptionLabel + fromDescription, p.description);
    ContainsAfter(CollectionLabel, fromCollection, p.description);
    ContainsAfter(priceText, CollectionLabel + fromCollection, p.description);
    ContainsAfter(PriceLabel, fromPrice, p.description);
    ContainsAfter(p.name, PriceLabel + fromPrice, p.description);
    ContainsAfter(MessageOpening, fromName, p.description);
  }
}
