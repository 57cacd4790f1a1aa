/**
 * The store's synchronous read accessors: `getProductById`,
 * `getCollectionById`, `getProductsByCollection`, `getFeaturedProducts` and
 * `searchProducts`, as functions of the product and collection lists the store
 * holds when they are called.
 */
module Queries {
  import opened Wrappers
  import opened Json
  import opened Text
  import opened Seqs
  import opened Catalog

  /** `getProductById`: the first product whose id is the string `id`. */
  function ProductById(products: seq<Product>, id: string): (r: Option<Product>)
    ensures r.None? <==> forall i :: 0 <= i < |products| ==> products[i].id != Str(id)
    ensures r.Some? ==> exists i :: 0 <= i < |products| && products[i] == r.value && r.value.id == Str(id)
                                    && forall j :: 0 <= j < i ==> products[j].id != Str(id)
  {
    Find(products, (p: Product) => StrictEquals(p.id, Str(id)))
  }

  /** `getCollectionById`: the first collection whose id is the string `id`. */
  function CollectionById(collections: seq<Collection>, id: string): (r: Option<Collection>)
    ensures r.None? <==> forall i :: 0 <= i < |collections| ==> collections[i].id != Str(id)
    ensures r.Some? ==> exists i :: 0 <= i < |collections| && collections[i] == r.value && r.value.id == Str(id)
                                    && forall j :: 0 <= j < i ==> collections[j].id != Str(id)
  {
    Find(collections, (c: Collection) => StrictEquals(c.id, Str(id)))
  }

  /** A product belongs to the collection called `name`, compared case-insensitively. */
  predicate InCollection(name: string, p: Product) {
    Lower(p.collection) == Lower(name)
  }

  /**
   * `getProductsByCollection`: the exact string "all" selects every product;
   * any other name selects, in order, the products whose collection equals it
   * case-insensitively.
   */
  function ProductsByCollection(products: seq<Product>, name: string): (r: seq<Product>)
    ensures name == "all" ==> r == products
    ensures name != "all" ==> forall i :: 0 <= i < |r| ==> r[i] in products && InCollection(name, r[i])
    ensures name != "all" ==> forall i :: 0 <= i < |products| && InCollection(name, products[i]) ==> products[i] in r
  {
    if name == "all" then products else Filter(products, (p: Product) => InCollection(name, p))
  }

  /** Names that differ only in letter case select the same products, unless one of them is the sentinel. */
  lemma ProductsByCollectionIgnoresCase(products: seq<Product>, a: string, b: string)
    requires a != "all" && b != "all" && Lower(a) == Lower(b)
    ensures ProductsByCollection(products, a) == ProductsByCollection(products, b)
  {
    FilterCongruent(products, (p: Product) => InCollection(a, p), (p: Product) => InCollection(b, p));
  }

  /** The filter keeps the catalog's order: selecting from two halves and joining equals selecting from the whole. */
  lemma ProductsByCollectionKeepsOrder(front: seq<Product>, back: seq<Product>, name: string)
    ensures ProductsByCollection(front + back, name) == ProductsByCollection(front, name) + ProductsByCollection(back, name)
  {
    if name != "all" {
      FilterAppend(front, back, (p: Product) => InCollection(name, p));
    }
  }

  /**
   * Only the exact, lower-case "all" is the sentinel: "all" keeps every list
   * whole, while "ALL" filters like any other name and keeps a list whole only
   * when every product's collection lower-cases to "all".
   */
  lemma AllSentinelIsExact(ps: seq<Product>)
    ensures ProductsByCollection(ps, "all") == ps
    ensures ProductsByCollection(ps, "ALL") == ps <==> forall i :: 0 <= i < |ps| ==> Lower(ps[i].collection) == "all"
  {
    assert Lower("ALL") == "all";
    var inAll := (p: Product) => InCollection("ALL", p);
    assert ProductsByCollection(ps, "ALL") == Filter(ps, inAll);
    if Filter(ps, inAll) == ps {
      FilterFullLength(ps, inAll);
    }
    if forall i :: 0 <= i < |ps| ==> Lower(ps[i].collection) == "all" {
      FilterKeepsAll(ps, inAll);
    }
  }

  predicate IsFeatured(p: Product) {
    p.featured
  }

  /** `getFeaturedProducts`: exactly the featured products, in catalog order. */
  function FeaturedProducts(products: seq<Product>): (r: seq<Product>)
    ensures forall i :: 0 <= i < |r| ==> r[i] in products && r[i].featured
    ensures forall i :: 0 <= i < |products| && products[i].featured ==> products[i] in r
  {
    Filter(products, IsFeatured)
  }

  /** The featured list keeps the catalog's order. */
  lemma FeaturedProductsKeepsOrder(front: seq<Product>, back: seq<Product>)
    ensures FeaturedProducts(front + back) == FeaturedProducts(front) + FeaturedProducts(back)
  {
    FilterAppend(front, back, IsFeatured);
  }

  /** The lower-cased query occurs in the product's lower-cased name, description or collection. */
  predicate MatchesQuery(lowerQuery: string, p: Product) {
    || Contains(Lower(p.name), lowerQuery)
    || Contains(Lower(p.description), lowerQuery)
    || Contains(Lower(p.collection), lowerQuery)
  }

  /**
   * `searchProducts`: a query that is blank after trimming returns the whole
   * list; otherwise the products matching the lower-cased query, which is NOT
   * trimmed, in catalog order.
   */
  function SearchProducts(products: seq<Product>, query: string): (r: seq<Product>)
    ensures AllWhitespace(query) ==> r == products
    ensures !AllWhitespace(query) ==> forall i :: 0 <= i < |r| ==> r[i] in products && MatchesQuery(Lower(query), r[i])
    ensures !AllWhitespace(query) ==> forall i :: 0 <= i < |products| && MatchesQuery(Lower(query), products[i]) ==> products[i] in r
  {
    TrimEmptyIff(query);
    if Trim(query) == [] then products
    else
      var lowercaseQuery := Lower(query);
      Filter(products, (p: Product) => MatchesQuery(lowercaseQuery, p))
  }

  /** Search results keep the catalog's order. */
  lemma SearchProductsKeepsOrder(front: seq<Product>, back: seq<Product>, query: string)
    ensures SearchProducts(front + back, query) == SearchProducts(front, query) + SearchProducts(back, query)
  {
    TrimEmptyIff(query);
    if Trim(query) != [] {
      FilterAppend(front, back, (p: Product) => MatchesQuery(Lower(query), p));
    }
  }

  /** Lower-casing keeps white space as it is, so queries that lower-case alike are blank together. */
  lemma BlankIgnoresCase(a: string, b: string)
    requires Lower(a) == Lower(b)
    ensures AllWhitespace(a) <==> AllWhitespace(b)
  {
    assert |a| == |Lower(a)| == |b|;
    forall i | 0 <= i < |a| ensures IsWhitespace(a[i]) <==> IsWhitespace(b[i]) {
      assert LowerChar(a[i]) == Lower(a)[i] == Lower(b)[i] == LowerChar(b[i]);
    }
  }

  /** The query's letter case does not matter: queries that lower-case alike find the same products. */
  lemma SearchProductsIgnoresCase(products: seq<Product>, a: string, b: string)
    requires Lower(a) == Lower(b)
    ensures SearchProducts(products, a) == SearchProducts(products, b)
  {
    BlankIgnoresCase(a, b);
    TrimEmptyIff(a);
    TrimEmptyIff(b);
    if !AllWhitespace(a) {
      var lowered := Lower(a);
      assert SearchProducts(products, a) == Filter(products, (p: Product) => MatchesQuery(lowered, p));
      assert SearchProducts(products, b) == Filter(products, (p: Product) => MatchesQuery(lowered, p));
    }
  }
}
