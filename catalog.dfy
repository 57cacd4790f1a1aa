/**
 * The catalog's records and the functions that turn loosely typed rows and
 * settings payloads into them: `validateHeroProduct`, `validateBrandSettings`,
 * `dbProductToProduct` and `dbCollectionToCollection` of the product context.
 */
module Catalog {
  import opened Wrappers
  import opened Json
  import opened Seqs

  /**
   * A product as the store holds it.  `collection` is the display name of its
   * collection, resolved at load time.  `id` and `createdAt` are copied from
   * the row without a default, so they stay raw values; `featured` keeps the
   * truthiness of `featured || false`, which is all any reader asks of it.
   */
  datatype Product = Product(
    id: Value,
    name: string,
    price: real,
    description: string,
    image: string,
    collection: string,
    featured: bool,
    createdAt: Value)

  datatype Collection = Collection(
    id: Value,
    name: string,
    description: string,
    image: string,
    createdAt: Value)

  /** The promotional record shown on the landing page. */
  datatype HeroProduct = HeroProduct(
    id: string,
    title: string,
    description: string,
    image: string,
    ctaText: string,
    ctaLink: string,
    price: real)

  datatype BrandSettings = BrandSettings(brandName: string, tagline: string)

  datatype SiteSettings = SiteSettings(heroProduct: HeroProduct, brandName: string, tagline: string)

  /** The settings the store starts with, before any load. */
  const DefaultSettings := SiteSettings(
    HeroProduct(
      "hero-1",
      "Handcrafted Coconut Bowl Set",
      "Transform your dining experience with our beautifully handcrafted coconut bowls.",
      "https://images.pexels.com/photos/6542652/pexels-photo-6542652.jpeg?auto=compress&cs=tinysrgb&w=1200",
      "Shop Coconut Bowls",
      "/products?collection=Bowls & Tableware",
      45.99),
    "CocoManthra",
    "Sustainable Handmade Coconut Products")

  // ---------------------------------------------------------------------------
  // Settings payloads
  // ---------------------------------------------------------------------------

  /** The members a hero payload must have, in the order the validator lists them. */
  const HeroFields: seq<string> := ["id", "title", "description", "image", "ctaText", "ctaLink", "price"]

  /** Member `f` of `v` is present and a string. */
  predicate HasText(v: Value, f: string) {
    v.Obj? && f in v.fields && v.fields[f].Str?
  }

  /** What a hero payload must look like: an object with the six text members as strings and `price` a number. */
  predicate IsHeroPayload(v: Value) {
    && HasText(v, "id") && HasText(v, "title") && HasText(v, "description")
    && HasText(v, "image") && HasText(v, "ctaText") && HasText(v, "ctaLink")
    && v.Obj? && "price" in v.fields && v.fields["price"].Num?
  }

  /** The payload `updateHeroProduct` writes for a complete hero record. */
  function HeroToJson(h: HeroProduct): Value {
    Obj(map[
      "id" := Str(h.id), "title" := Str(h.title), "description" := Str(h.description),
      "image" := Str(h.image), "ctaText" := Str(h.ctaText), "ctaLink" := Str(h.ctaLink),
      "price" := Num(h.price)])
  }

  /** The required members `data` lacks (`requiredFields.filter(f => !(f in data))`). */
  function MissingHeroFields(data: Value): (r: seq<string>)
    ensures r == [] <==> forall f :: f in HeroFields ==> Has(data, f)
  {
    Filter(HeroFields, (f: string) => !Has(data, f))
  }

  /**
   * `validateHeroProduct`: the whole record or nothing.  It accepts exactly the
   * hero payloads, and what it accepts carries the payload's seven members.
   */
  function ValidateHeroProduct(data: Value): (r: Option<HeroProduct>)
    ensures r.Some? <==> IsHeroPayload(data)
    ensures r.Some? ==> r.value == HeroProduct(
              data.fields["id"].s, data.fields["title"].s, data.fields["description"].s, data.fields["image"].s,
              data.fields["ctaText"].s, data.fields["ctaLink"].s, data.fields["price"].n)
  {
    if !Truthy(data) || !IsObjectType(data) then None
    else if |MissingHeroFields(data)| > 0 then
      assert !Has(data, "id") || !Has(data, "title") || !Has(data, "description") || !Has(data, "image")
          || !Has(data, "ctaText") || !Has(data, "ctaLink") || !Has(data, "price");
      None
    else if
      || !Member(data, "id").Str? || !Member(data, "title").Str? || !Member(data, "description").Str?
      || !Member(data, "image").Str? || !Member(data, "ctaText").Str? || !Member(data, "ctaLink").Str?
      || !Member(data, "price").Num?
    then None
    else
      Some(HeroProduct(
        Member(data, "id").s, Member(data, "title").s, Member(data, "description").s,
        Member(data, "image").s, Member(data, "ctaText").s, Member(data, "ctaLink").s,
        Member(data, "price").n))
  }

  /** The payload `updateSiteSettings` writes. */
  function BrandToJson(b: BrandSettings): Value {
    Obj(map["brandName" := Str(b.brandName), "tagline" := Str(b.tagline)])
  }

  /** What a brand payload must look like: an object whose `brandName` and `tagline` are strings. */
  predicate IsBrandPayload(v: Value) {
    v.Obj? && Member(v, "brandName").Str? && Member(v, "tagline").Str?
  }

  /**
   * `validateBrandSettings`: accepts an object whose `brandName` and `tagline`
   * are both strings and returns just those two members.
   */
  function ValidateBrandSettings(data: Value): (r: Option<BrandSettings>)
    ensures r.Some? <==> IsBrandPayload(data)
    ensures r.Some? ==> r.value == BrandSettings(data.fields["brandName"].s, data.fields["tagline"].s)
  {
    if !Truthy(data) || !IsObjectType(data) then None
    else if !Member(data, "brandName").Str? || !Member(data, "tagline").Str? then None
    else Some(BrandSettings(Member(data, "brandName").s, Member(data, "tagline").s))
  }

  /** A complete hero record written by `updateHeroProduct` validates back to itself. */
  lemma HeroRoundTrip(h: HeroProduct)
    ensures ValidateHeroProduct(HeroToJson(h)) == Some(h)
  {
    assert IsHeroPayload(HeroToJson(h));
  }

  /** The brand payload written by `updateSiteSettings` validates back to the same pair. */
  lemma BrandRoundTrip(b: BrandSettings)
    ensures ValidateBrandSettings(BrandToJson(b)) == Some(b)
  {
  }

  /** A hero payload without `price`, or with `price` as a string, is rejected as a whole. */
  lemma HeroWithoutNumericPriceRejected(h: HeroProduct, text: string)
    ensures ValidateHeroProduct(Obj(HeroToJson(h).fields - {"price"})) == None
    ensures ValidateHeroProduct(Obj(HeroToJson(h).fields["price" := Str(text)])) == None
  {
  }

  // ---------------------------------------------------------------------------
  // Table rows
  // ---------------------------------------------------------------------------

  /** `v || ''` on a text column. */
  function OrEmpty(v: Value): string {
    match v
    case Str(s) => s
    case _ => ""
  }

  /** `v || 0` on a numeric column. */
  function OrZero(v: Value): real {
    match v
    case Num(n) => n
    case _ => 0.0
  }

  /** `dbCollectionToCollection`: text columns default to "" when absent or falsy. */
  function DbCollectionToCollection(row: Row): (r: Collection)
    ensures r.id == Field(row, "id") && r.createdAt == Field(row, "created_at")
    ensures Field(row, "name").Str? ==> r.name == Field(row, "name").s
    ensures Field(row, "description").Str? ==> r.description == Field(row, "description").s
    ensures Field(row, "image").Str? ==> r.image == Field(row, "image").s
    ensures !Truthy(Field(row, "name")) ==> r.name == ""
    ensures !Truthy(Field(row, "description")) ==> r.description == ""
    ensures !Truthy(Field(row, "image")) ==> r.image == ""
  {
    Collection(
      Field(row, "id"),
      OrEmpty(Field(row, "name")),
      OrEmpty(Field(row, "description")),
      OrEmpty(Field(row, "image")),
      Field(row, "created_at"))
  }

  /** `c.id === cid`, the test `dbProductToProduct` finds the product's collection with. */
  predicate HasId(c: Collection, cid: Value) {
    StrictEquals(c.id, cid)
  }

  /** Position `i` holds the first collection of `cs` whose id is `cid`. */
  predicate FirstWithId(cs: seq<Collection>, cid: Value, i: nat) {
    i < |cs| && HasId(cs[i], cid) && forall j :: 0 <= j < i ==> !HasId(cs[j], cid)
  }

  /** The display name stored for a product whose collection id is `cid`: `collection?.name || 'Unknown'`. */
  function CollectionNameFor(cs: seq<Collection>, cid: Value): (r: string)
    ensures (forall i :: 0 <= i < |cs| ==> !HasId(cs[i], cid)) ==> r == "Unknown"
    ensures forall i: nat :: FirstWithId(cs, cid, i) ==> r == (if cs[i].name == "" then "Unknown" else cs[i].name)
  {
    match FirstIndex(cs, (c: Collection) => HasId(c, cid))
    case None => "Unknown"
    case Some(i) => if cs[i].name == "" then "Unknown" else cs[i].name
  }

  /**
   * `dbProductToProduct`: the collection name is resolved against the
   * collections just loaded; absent or falsy name, description and image
   * become "", price becomes 0 and featured false.
   */
  function DbProductToProduct(row: Row, cs: seq<Collection>): (r: Product)
    ensures r.id == Field(row, "id") && r.createdAt == Field(row, "created_at")
    ensures Field(row, "name").Str? ==> r.name == Field(row, "name").s
    ensures Field(row, "description").Str? ==> r.description == Field(row, "description").s
    ensures Field(row, "image").Str? ==> r.image == Field(row, "image").s
    ensures !Truthy(Field(row, "name")) ==> r.name == ""
    ensures !Truthy(Field(row, "description")) ==> r.description == ""
    ensures !Truthy(Field(row, "image")) ==> r.image == ""
    ensures Field(row, "price").Num? ==> r.price == Field(row, "price").n
    ensures !Truthy(Field(row, "price")) ==> r.price == 0.0
    ensures r.featured == Truthy(Field(row, "featured"))
    ensures (forall i :: 0 <= i < |cs| ==> !HasId(cs[i], Field(row, "collection_id"))) ==> r.collection == "Unknown"
    ensures forall i: nat :: FirstWithId(cs, Field(row, "collection_id"), i) ==>
              r.collection == (if cs[i].name == "" then "Unknown" else cs[i].name)
  {
    Product(
      Field(row, "id"),
      OrEmpty(Field(row, "name")),
      OrZero(Field(row, "price")),
      OrEmpty(Field(row, "description")),
      OrEmpty(Field(row, "image")),
      CollectionNameFor(cs, Field(row, "collection_id")),
      Truthy(Field(row, "featured")),
      Field(row, "created_at"))
  }
}
