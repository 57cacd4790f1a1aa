/**
 * The logic of the collection detail page: the route's collection name, the
 * page's three states (loading skeleton, "Collection Not Found", the
 * collection), and the figures it shows for a collection: the number of its
 * products, the number of featured ones and the price range.
 */
module CollectionDetailPage {
  import opened Wrappers
  import opened Seqs
  import opened Catalog
  import opened Queries
  import Store

  /**
   * `collectionName ? decodeURIComponent(collectionName) : ''`: the route
   * parameter, decoded when present and non-empty.  `decode` stands for
   * `decodeURIComponent`.
   */
  function DecodedName(param: Option<string>, decode: string -> string): (name: string)
    ensures param.None? || param.value == "" ==> name == ""
    ensures param.Some? && param.value != "" ==> name == decode(param.value)
  {
    if param.Some? && param.value != "" then decode(param.value) else ""
  }

  /** `products.map(p => p.price)`. */
  function Prices(ps: seq<Product>): (r: seq<real>)
    ensures |r| == |ps|
    ensures forall i :: 0 <= i < |ps| ==> r[i] == ps[i].price
    decreases |ps|
  {
    if ps == [] then [] else [ps[0].price] + Prices(ps[1..])
  }

  datatype PriceRange = PriceRange(low: real, high: real)

  /**
   * The "Price Range" box: shown only for a non-empty list, from the lowest
   * to the highest price, both of them prices of listed products.
   */
  function PriceRangeOf(ps: seq<Product>): (r: Option<PriceRange>)
    ensures r.None? <==> ps == []
    ensures r.Some? ==> r.value.low <= r.value.high
    ensures r.Some? ==> forall i :: 0 <= i < |ps| ==> r.value.low <= ps[i].price <= r.value.high
    ensures r.Some? ==> exists i :: 0 <= i < |ps| && ps[i].price == r.value.low
    ensures r.Some? ==> exists i :: 0 <= i < |ps| && ps[i].price == r.value.high
  {
    if ps == [] then None
    else
      var prices := Prices(ps);
      var low := Min(prices);
      var high := Max(prices);
      assert forall i :: 0 <= i < |ps| ==> prices[i] in prices;
      assert exists i :: 0 <= i < |ps| && prices[i] == low;
      assert exists i :: 0 <= i < |ps| && prices[i] == high;
      Some(PriceRange(low, high))
  }

  /** What the page renders. */
  datatype CollectionView =
    | CollectionSkeleton
    | CollectionMissing
    | CollectionShown(
        collection: Collection,
        products: seq<Product>,
        productCount: nat,
        featuredCount: nat,
        priceRange: Option<PriceRange>)

  /**
   * The branch the page takes.  Loading takes precedence; otherwise the
   * collection is the first one whose name equals the decoded name exactly,
   * and the page is "Collection Not Found" when there is none.  The product
   * list is `getProductsByCollection` of the decoded name.
   */
  function CollectionDetail(collections: seq<Collection>, products: seq<Product>, loading: bool,
                            param: Option<string>, decode: string -> string): (v: CollectionView)
    ensures v.CollectionSkeleton? <==> loading
    ensures v.CollectionMissing? <==> !loading && Store.NoneNamed(collections, DecodedName(param, decode))
    ensures v.CollectionShown? ==>
              exists i: nat :: Store.FirstNamed(collections, DecodedName(param, decode), i) && v.collection == collections[i]
    ensures v.CollectionShown? ==>
              && v.products == ProductsByCollection(products, DecodedName(param, decode))
              && v.productCount == |v.products|
              && v.featuredCount == |Filter(v.products, IsFeatured)| <= v.productCount
              && v.priceRange == PriceRangeOf(v.products)
  {
    var name := DecodedName(param, decode);
    var found := Store.FindByName(collections, name);
    var collectionProducts := ProductsByCollection(products, name);
    if loading then CollectionSkeleton
    else if found.None? then CollectionMissing
    else
      CollectionShown(collections[found.value], collectionProducts, |collectionProducts|,
                      |Filter(collectionProducts, IsFeatured)|, PriceRangeOf(collectionProducts))
  }

  /**
   * The collection is looked up by exact name but its products by name
   * ignoring case: a route naming a collection in other letter case finds
   * that collection's products and still shows "Collection Not Found".
   */
  lemma MissingDespiteMatchingProducts(collections: seq<Collection>, products: seq<Product>,
                                       param: Option<string>, decode: string -> string, k: nat)
    requires DecodedName(param, decode) != "all"
    requires Store.NoneNamed(collections, DecodedName(param, decode))
    requires k < |products| && InCollection(DecodedName(param, decode), products[k])
    ensures CollectionDetail(collections, products, false, param, decode).CollectionMissing?
    ensures products[k] in ProductsByCollection(products, DecodedName(param, decode))
  {
  }

  /** A collection literally named "all" counts every product of the catalog. */
  lemma CollectionNamedAllCountsEverything(collections: seq<Collection>, products: seq<Product>,
                                           param: Option<string>, decode: string -> string)
    requires DecodedName(param, decode) == "all"
    requires CollectionDetail(collections, products, false, param, decode).CollectionShown?
    ensures CollectionDetail(collections, products, false, param, decode).productCount == |products|
  {
  }

  /** The featured count equals the product count exactly when every listed product is featured. */
  lemma AllFeaturedIff(collections: seq<Collection>, products: seq<Product>, loading: bool,
                       param: Option<string>, decode: string -> string)
    requires CollectionDetail(collections, products, loading, param, decode).CollectionShown?
    ensures var v := CollectionDetail(collections, products, loading, param, decode);
            v.featuredCount == v.productCount <==> forall i :: 0 <= i < |v.products| ==> v.products[i].featured
  {
    var v := CollectionDetail(collections, products, loading, param, decode);
    if v.featuredCount == v.productCount {
      FilterFullLength(v.products, IsFeatured);
      forall i | 0 <= i < |v.products| ensures v.products[i].featured {
        assert IsFeatured(v.products[i]);
      }
    }
    if forall i :: 0 <= i < |v.products| ==> v.products[i].featured {
      assert forall i :: 0 <= i < |v.products| ==> IsFeatured(v.products[i]);
      FilterKeepsAll(v.products, IsFeatured);
    }
  }
}
