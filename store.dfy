/**
 * The catalog store of the product context: its state, the load routine that
 * replaces that state from three table reads, and the write operations, which
 * resolve their arguments against the state and produce the request they
 * would send to the remote service.
 */
module Store {
  import opened Wrappers
  import opened Json
  import opened Catalog

  // ---------------------------------------------------------------------------
  // Reads
  // ---------------------------------------------------------------------------

  /** What a failed read throws: an `Error` with a message, or any other value. */
  datatype LoadError = ErrorInstance(message: string) | OtherThrown

  /** The outcome of one table read: its error, or its `data` (which may be `null`). */
  datatype Fetch = Failed(error: LoadError) | Fetched(data: Option<seq<Row>>)

  /** `err instanceof Error ? err.message : 'Failed to load data'`. */
  function ErrorMessage(e: LoadError): (r: string)
    ensures e.ErrorInstance? ==> r == e.message
    ensures e.OtherThrown? ==> r == "Failed to load data"
  {
    match e
    case ErrorInstance(m) => m
    case OtherThrown => "Failed to load data"
  }

  /** `data || []`. */
  function RowsOf(data: Option<seq<Row>>): seq<Row> {
    data.GetOr([])
  }

  /** `rows.map(dbCollectionToCollection)`. */
  function ConvertCollections(rows: seq<Row>): (r: seq<Collection>)
    ensures |r| == |rows| && forall i :: 0 <= i < |rows| ==> r[i] == DbCollectionToCollection(rows[i])
  {
    if rows == [] then [] else [DbCollectionToCollection(rows[0])] + ConvertCollections(rows[1..])
  }

  /** `rows.map(p => dbProductToProduct(p, cs))`. */
  function ConvertProducts(rows: seq<Row>, cs: seq<Collection>): (r: seq<Product>)
    ensures |r| == |rows| && forall i :: 0 <= i < |rows| ==> r[i] == DbProductToProduct(rows[i], cs)
  {
    if rows == [] then [] else [DbProductToProduct(rows[0], cs)] + ConvertProducts(rows[1..], cs)
  }

  /** `s.key === key`. */
  predicate HasKey(key: string, row: Row) {
    StrictEquals(Field(row, "key"), Str(key))
  }

  /** `settingsData.find(s => s.key === key)`: the first row with that key. */
  function FindSetting(rows: seq<Row>, key: string): (r: Option<Row>)
    ensures r.None? <==> forall i :: 0 <= i < |rows| ==> !HasKey(key, rows[i])
    ensures r.Some? ==> exists i :: 0 <= i < |rows| && rows[i] == r.value && HasKey(key, rows[i])
                                    && forall j :: 0 <= j < i ==> !HasKey(key, rows[j])
    decreases |rows|
  {
    if rows == [] then None
    else if HasKey(key, rows[0]) then Some(rows[0])
    else
      var r := FindSetting(rows[1..], key);
      assert r.Some? ==> exists i :: 0 <= i < |rows[1..]| && rows[1..][i] == r.value && HasKey(key, rows[1..][i])
                                    && forall j :: 0 <= j < i ==> !HasKey(key, rows[1..][j]);
      r
  }

  /** `settingsData.find(s => s.key === key)?.value`. */
  function SettingValue(rows: seq<Row>, key: string): Value {
    match FindSetting(rows, key)
    case Some(row) => Field(row, "value")
    case None => Undefined
  }

  /** The hero record a settings read provides: its first `hero_product` row, when truthy and valid. */
  function HeroFromSettings(rows: seq<Row>): (r: Option<HeroProduct>)
    ensures r.Some? <==> IsHeroPayload(SettingValue(rows, "hero_product"))
    ensures r.Some? ==> r == ValidateHeroProduct(SettingValue(rows, "hero_product"))
  {
    var v := SettingValue(rows, "hero_product");
    if Truthy(v) then ValidateHeroProduct(v) else None
  }

  /** The brand pair a settings read provides: its first `brand_settings` row, when truthy and valid. */
  function BrandFromSettings(rows: seq<Row>): (r: Option<BrandSettings>)
    ensures r.Some? <==> IsBrandPayload(SettingValue(rows, "brand_settings"))
    ensures r.Some? ==> r == ValidateBrandSettings(SettingValue(rows, "brand_settings"))
  {
    var v := SettingValue(rows, "brand_settings");
    if Truthy(v) then ValidateBrandSettings(v) else None
  }

  /** A settings row as the writes upsert it. */
  function SettingsRow(key: string, value: Value): Row {
    map["key" := Str(key), "value" := value]
  }

  /**
   * The updater passed to `setSiteSettings`: copies the previous settings and
   * overwrites the hero record, and the brand name and tagline together, only
   * with values that validate.
   */
  method MergeSettings(prev: SiteSettings, rows: seq<Row>) returns (next: SiteSettings)
    ensures next == MergedSettings(prev, rows)
  {
    var heroProductSetting := FindSetting(rows, "hero_product");
    var brandSetting := FindSetting(rows, "brand_settings");
    var newSettings := prev;
    if heroProductSetting.Some? && Truthy(Field(heroProductSetting.value, "value")) {
      var validatedHeroProduct := ValidateHeroProduct(Field(heroProductSetting.value, "value"));
      if validatedHeroProduct.Some? {
        newSettings := newSettings.(heroProduct := validatedHeroProduct.value);
      }
    }
    if brandSetting.Some? && Truthy(Field(brandSetting.value, "value")) {
      var validatedBrandSettings := ValidateBrandSettings(Field(brandSetting.value, "value"));
      if validatedBrandSettings.Some? {
        newSettings := newSettings.(brandName := validatedBrandSettings.value.brandName);
        newSettings := newSettings.(tagline := validatedBrandSettings.value.tagline);
      }
    }
    next := newSettings;
  }

  /** The settings the merge produces from `prev` and a non-empty settings read. */
  function MergedSettings(prev: SiteSettings, rows: seq<Row>): (r: SiteSettings)
    ensures r.heroProduct == prev.heroProduct || HeroFromSettings(rows) == Some(r.heroProduct)
    ensures (r.brandName == prev.brandName && r.tagline == prev.tagline)
            || BrandFromSettings(rows) == Some(BrandSettings(r.brandName, r.tagline))
  {
    var brand := BrandFromSettings(rows);
    SiteSettings(
      HeroFromSettings(rows).GetOr(prev.heroProduct),
      if brand.Some? then brand.value.brandName else prev.brandName,
      if brand.Some? then brand.value.tagline else prev.tagline)
  }

  /** The settings read succeeded and returned at least one row (`!settingsError && settingsData && settingsData.length > 0`). */
  predicate HasSettingsRows(settingsRead: Fetch) {
    settingsRead.Fetched? && RowsOf(settingsRead.data) != []
  }

  /** The load reaches the settings merge: both table reads succeeded and the settings read returned rows. */
  predicate SettingsMerged(collectionsRead: Fetch, productsRead: Fetch, settingsRead: Fetch) {
    collectionsRead.Fetched? && productsRead.Fetched? && HasSettingsRows(settingsRead)
  }

  /**
   * The merge replaces the hero record exactly when the first `hero_product`
   * row holds a hero payload, and the brand name and tagline together exactly
   * when the first `brand_settings` row holds a brand payload; otherwise the
   * previous values stay.
   */
  lemma MergeReplacesOnlyValidPayloads(prev: SiteSettings, rows: seq<Row>)
    ensures var next := MergedSettings(prev, rows);
            var hero := SettingValue(rows, "hero_product");
            var brand := SettingValue(rows, "brand_settings");
            && (IsHeroPayload(hero) ==> Some(next.heroProduct) == ValidateHeroProduct(hero))
            && (!IsHeroPayload(hero) ==> next.heroProduct == prev.heroProduct)
            && (IsBrandPayload(brand) ==> Some(BrandSettings(next.brandName, next.tagline)) == ValidateBrandSettings(brand))
            && (!IsBrandPayload(brand) ==> next.brandName == prev.brandName && next.tagline == prev.tagline)
  {
  }

  /** The brand name and tagline never change one without the other's source: both come from one validated row. */
  lemma BrandFieldsChangeTogether(prev: SiteSettings, rows: seq<Row>)
    ensures var next := MergedSettings(prev, rows);
            (next.brandName != prev.brandName || next.tagline != prev.tagline) ==>
              BrandFromSettings(rows) == Some(BrandSettings(next.brandName, next.tagline))
  {
  }

  /** Settings rows with no `hero_product` key leave the hero record as it was, whatever else they hold. */
  lemma HeroUntouchedWithoutHeroRow(prev: SiteSettings, rows: seq<Row>)
    requires forall i :: 0 <= i < |rows| ==> !HasKey("hero_product", rows[i])
    ensures MergedSettings(prev, rows).heroProduct == prev.heroProduct
  {
  }

  /** A hero record written by `updateHeroProduct` is what the next load puts in the settings. */
  lemma WrittenHeroIsLoaded(h: HeroProduct, later: seq<Row>)
    ensures HeroFromSettings([SettingsRow("hero_product", HeroToJson(h))] + later) == Some(h)
  {
    var rows := [SettingsRow("hero_product", HeroToJson(h))] + later;
    assert HasKey("hero_product", rows[0]);
    HeroRoundTrip(h);
  }

  /** A hero payload missing a member is written as given, and the next load keeps the previous hero record. */
  lemma PartialHeroIsNotLoaded(h: HeroProduct, missing: string, later: seq<Row>)
    requires missing in HeroFields
    ensures HeroFromSettings([SettingsRow("hero_product", Obj(HeroToJson(h).fields - {missing}))] + later) == None
  {
    var rows := [SettingsRow("hero_product", Obj(HeroToJson(h).fields - {missing}))] + later;
    assert HasKey("hero_product", rows[0]);
  }

  /** A brand pair written by `updateSiteSettings` is what the next load puts in the settings. */
  lemma WrittenBrandIsLoaded(b: BrandSettings, later: seq<Row>)
    ensures BrandFromSettings([SettingsRow("brand_settings", BrandToJson(b))] + later) == Some(b)
  {
    var rows := [SettingsRow("brand_settings", BrandToJson(b))] + later;
    assert HasKey("brand_settings", rows[0]);
    BrandRoundTrip(b);
  }

  /** Only the first row with a key counts: an invalid first `hero_product` row hides a valid later one. */
  lemma FirstHeroRowDecides(first: Value, h: HeroProduct)
    requires !IsHeroPayload(first)
    ensures HeroFromSettings([SettingsRow("hero_product", first), SettingsRow("hero_product", HeroToJson(h))]) == None
  {
    var rows := [SettingsRow("hero_product", first), SettingsRow("hero_product", HeroToJson(h))];
    assert HasKey("hero_product", rows[0]);
  }

  // ---------------------------------------------------------------------------
  // Writes
  // ---------------------------------------------------------------------------

  /**
   * A request to the remote service: `insert(row)`, `update(patch).eq('id', id)`,
   * `delete().eq('id', id)` or `upsert(row, { onConflict })`.
   */
  datatype WriteRequest =
    | Insert(table: string, row: Row)
    | Update(table: string, patch: Row, id: string)
    | Delete(table: string, id: string)
    | Upsert(table: string, row: Row, onConflict: Option<string>)

  const CollectionNotFound := "Collection not found"

  /** The fields of `addProduct`'s argument (a product without `id` and `createdAt`). */
  datatype NewProduct = NewProduct(
    name: string, price: real, description: string, image: string, collection: string, featured: bool)

  /** The fields of `updateProduct`'s argument that it reads; `None` is a member left undefined. */
  datatype ProductPatch = ProductPatch(
    name: Option<string>, price: Option<real>, description: Option<string>, image: Option<string>,
    featured: Option<bool>, collection: Option<string>)

  datatype NewCollection = NewCollection(name: string, description: string, image: string)

  datatype CollectionPatch = CollectionPatch(name: Option<string>, description: Option<string>, image: Option<string>)

  /** The members of `updateSiteSettings`'s argument that it reads. */
  datatype SettingsPatch = SettingsPatch(brandName: Option<string>, tagline: Option<string>)

  /** Position `i` holds the first collection of `cs` named exactly `name` (`c.name === name`). */
  predicate FirstNamed(cs: seq<Collection>, name: string, i: nat) {
    i < |cs| && cs[i].name == name && forall j :: 0 <= j < i ==> cs[j].name != name
  }

  predicate NoneNamed(cs: seq<Collection>, name: string) {
    forall i :: 0 <= i < |cs| ==> cs[i].name != name
  }

  /** `collections.find(c => c.name === name)`, as the position of the collection found. */
  function FindByName(cs: seq<Collection>, name: string): (r: Option<nat>)
    ensures r.None? <==> NoneNamed(cs, name)
    ensures r.Some? ==> FirstNamed(cs, name, r.value)
    decreases |cs|
  {
    if cs == [] then None
    else if cs[0].name == name then Some(0)
    else match FindByName(cs[1..], name)
      case None => None
      case Some(k) =>
        assert FirstNamed(cs[1..], name, k);
        Some(k + 1)
  }

  /** The row `addProduct` inserts for a product of the collection with id `collectionId`. */
  function NewProductRow(data: NewProduct, collectionId: Value): Row {
    map[
      "name" := Str(data.name), "price" := Num(data.price), "description" := Str(data.description),
      "image" := Str(data.image), "collection_id" := collectionId, "featured" := Bool(data.featured)]
  }

  function NewCollectionRow(data: NewCollection): Row {
    map["name" := Str(data.name), "description" := Str(data.description), "image" := Str(data.image)]
  }

  /** Column `k` of `patch` is `v` when the member was supplied, and absent when it was not. */
  predicate PatchColumn(patch: Row, k: string, v: Option<Value>) {
    if v.Some? then k in patch && patch[k] == v.value else k !in patch
  }

  function TextMember(v: Option<string>): Option<Value> {
    if v.Some? then Some(Str(v.value)) else None
  }

  const ProductColumns: set<string> := {"name", "price", "description", "image", "featured", "collection_id"}

  /** The product members that are written to a column of the same name. */
  const FieldColumns: set<string> := {"name", "price", "description", "image", "featured"}

  /** Each of the product members `name` ... `featured` is in `patch` exactly when supplied. */
  predicate IsFieldPatch(data: ProductPatch, patch: Row) {
    && PatchColumn(patch, "name", TextMember(data.name))
    && PatchColumn(patch, "price", if data.price.Some? then Some(Num(data.price.value)) else None)
    && PatchColumn(patch, "description", TextMember(data.description))
    && PatchColumn(patch, "image", TextMember(data.image))
    && PatchColumn(patch, "featured", if data.featured.Some? then Some(Bool(data.featured.value)) else None)
  }

  /**
   * `patch` holds exactly the supplied members of `data`, `collection`
   * replaced by `collection_id`: the id of the first collection with that name.
   */
  predicate IsProductPatch(cs: seq<Collection>, data: ProductPatch, patch: Row) {
    && patch.Keys <= ProductColumns
    && IsFieldPatch(data, patch)
    && (data.collection.None? ==> "collection_id" !in patch)
    && (data.collection.Some? ==>
          exists i: nat :: i < |cs| && FirstNamed(cs, data.collection.value, i) && PatchColumn(patch, "collection_id", Some(cs[i].id)))
  }

  /** Setting `collection_id` leaves the other members of a patch as they were. */
  lemma CollectionIdKeepsFields(data: ProductPatch, patch: Row, id: Value)
    requires IsFieldPatch(data, patch)
    ensures IsFieldPatch(data, patch["collection_id" := id])
  {
    var next := patch["collection_id" := id];
    assert "collection_id" != "name" && "collection_id" != "price" && "collection_id" != "description";
    assert "collection_id" != "image" && "collection_id" != "featured";
  }

  /** The first half of `updateProduct`: a patch with each supplied member of `name` ... `featured`. */
  method ProductFieldPatch(data: ProductPatch) returns (updateData: Row)
    ensures updateData.Keys <= FieldColumns && IsFieldPatch(data, updateData)
  {
    updateData := map[];
    if data.name.Some? { updateData := updateData["name" := Str(data.name.value)]; }
    if data.price.Some? { updateData := updateData["price" := Num(data.price.value)]; }
    if data.description.Some? { updateData := updateData["description" := Str(data.description.value)]; }
    if data.image.Some? { updateData := updateData["image" := Str(data.image.value)]; }
    if data.featured.Some? { updateData := updateData["featured" := Bool(data.featured.value)]; }
  }

  const CollectionColumns: set<string> := {"name", "description", "image"}

  /** `patch` holds exactly the supplied members of `data`. */
  predicate IsCollectionPatch(data: CollectionPatch, patch: Row) {
    && patch.Keys <= CollectionColumns
    && PatchColumn(patch, "name", TextMember(data.name))
    && PatchColumn(patch, "description", TextMember(data.description))
    && PatchColumn(patch, "image", TextMember(data.image))
  }

  /** `settings.x`, read as a JavaScript condition. */
  predicate Supplied(v: Option<string>) {
    v.Some? && v.value != ""
  }

  /** Collection ids are strings, each held by one collection (they are the table's primary key). */
  predicate KeyedById(cs: seq<Collection>) {
    && (forall i :: 0 <= i < |cs| ==> cs[i].id.Str?)
    && (forall i, j :: 0 <= i < |cs| && 0 <= j < |cs| && cs[i].id == cs[j].id ==> i == j)
  }

  lemma FirstNamedIsFirstWithId(cs: seq<Collection>, name: string, i: nat)
    requires KeyedById(cs) && FirstNamed(cs, name, i)
    ensures FirstWithId(cs, cs[i].id, i)
  {
  }

  /**
   * A product inserted by `addProduct`, once the service has given it an id
   * and a creation time, loads back as the product that was added.
   */
  lemma AddedProductLoadsBack(cs: seq<Collection>, data: NewProduct, i: nat, id: Value, createdAt: Value)
    requires KeyedById(cs) && FirstNamed(cs, data.collection, i) && data.collection != ""
    ensures DbProductToProduct(NewProductRow(data, cs[i].id)["id" := id]["created_at" := createdAt], cs)
            == Product(id, data.name, data.price, data.description, data.image, data.collection, data.featured, createdAt)
  {
    FirstNamedIsFirstWithId(cs, data.collection, i);
  }

  /** Merging a field patch into a row overwrites exactly the supplied columns among `name` ... `featured`. */
  lemma FieldPatchOverwrites(data: ProductPatch, patch: Row, row: Row)
    requires IsFieldPatch(data, patch)
    ensures Field(row + patch, "name") == (if data.name.Some? then Str(data.name.value) else Field(row, "name"))
    ensures Field(row + patch, "price") == (if data.price.Some? then Num(data.price.value) else Field(row, "price"))
    ensures Field(row + patch, "description") == (if data.description.Some? then Str(data.description.value) else Field(row, "description"))
    ensures Field(row + patch, "image") == (if data.image.Some? then Str(data.image.value) else Field(row, "image"))
    ensures Field(row + patch, "featured") == (if data.featured.Some? then Bool(data.featured.value) else Field(row, "featured"))
  {
  }

  /**
   * A row updated with an `updateProduct` patch loads back with the supplied
   * members changed and every other member as before.
   */
  lemma PatchedProductLoadsBack(cs: seq<Collection>, data: ProductPatch, patch: Row, row: Row)
    requires KeyedById(cs) && IsProductPatch(cs, data, patch)
    requires data.collection.Some? ==> data.collection.value != ""
    ensures var before := DbProductToProduct(row, cs);
            var after := DbProductToProduct(row + patch, cs);
            && after.id == before.id && after.createdAt == before.createdAt
            && after.name == data.name.GetOr(before.name)
            && after.price == data.price.GetOr(before.price)
            && after.description == data.description.GetOr(before.description)
            && after.image == data.image.GetOr(before.image)
            && after.featured == data.featured.GetOr(before.featured)
            && after.collection == data.collection.GetOr(before.collection)
  {
    var merged := row + patch;
    assert "id" !in patch && "created_at" !in patch;
    assert Field(merged, "id") == Field(row, "id");
    assert Field(merged, "created_at") == Field(row, "created_at");
    FieldPatchOverwrites(data, patch, row);
    if data.collection.Some? {
      var i: nat :| i < |cs| && FirstNamed(cs, data.collection.value, i) && PatchColumn(patch, "collection_id", Some(cs[i].id));
      FirstNamedIsFirstWithId(cs, data.collection.value, i);
      assert Field(merged, "collection_id") == cs[i].id;
    } else {
      assert Field(merged, "collection_id") == Field(row, "collection_id");
    }
  }

  /** A collection inserted by `addCollection` loads back as the collection that was added. */
  lemma AddedCollectionLoadsBack(data: NewCollection, id: Value, createdAt: Value)
    ensures DbCollectionToCollection(NewCollectionRow(data)["id" := id]["created_at" := createdAt])
            == Collection(id, data.name, data.description, data.image, createdAt)
  {
  }

  /** A collection row updated with an `updateCollection` patch loads back with the supplied members changed. */
  lemma PatchedCollectionLoadsBack(data: CollectionPatch, patch: Row, row: Row)
    requires IsCollectionPatch(data, patch)
    ensures var before := DbCollectionToCollection(row);
            var after := DbCollectionToCollection(row + patch);
            && after.id == before.id && after.createdAt == before.createdAt
            && after.name == data.name.GetOr(before.name)
            && after.description == data.description.GetOr(before.description)
            && after.image == data.image.GetOr(before.image)
  {
  }

  // ---------------------------------------------------------------------------
  // The store
  // ---------------------------------------------------------------------------

  /** One call of a state setter, in the order the load routine makes them. */
  datatype StateUpdate =
    | SetLoading(loading: bool)
    | SetError(error: Option<string>)
    | SetCollections
    | SetProducts
    | SetSiteSettings

  /** What the `try` block of a load throws: the error of the first failed table read, if any. */
  function Thrown(collectionsRead: Fetch, productsRead: Fetch): (r: Option<LoadError>)
    ensures r.None? <==> collectionsRead.Fetched? && productsRead.Fetched?
    ensures collectionsRead.Failed? ==> r == Some(collectionsRead.error)
    ensures collectionsRead.Fetched? && productsRead.Failed? ==> r == Some(productsRead.error)
  {
    if collectionsRead.Failed? then Some(collectionsRead.error)
    else if productsRead.Failed? then Some(productsRead.error)
    else None
  }

  class CatalogStore {
    var products: seq<Product>
    var collections: seq<Collection>
    var siteSettings: SiteSettings
    var loading: bool
    var error: Option<string>
    /** The setter calls made so far, oldest first. */
    ghost var updates: seq<StateUpdate>

    /** The state before the first load: empty lists, the built-in settings, loading. */
    constructor ()
      ensures products == [] && collections == [] && siteSettings == DefaultSettings
      ensures loading && error == None && updates == []
    {
      products := [];
      collections := [];
      siteSettings := DefaultSettings;
      loading := true;
      error := None;
      updates := [];
    }

    /**
     * The settings step of a load: a failed settings read is only logged; a
     * read that returned rows is merged into the current settings.
     */
    method ApplySettingsRead(settingsRead: Fetch)
      modifies this`siteSettings, this`updates
      ensures siteSettings == (if HasSettingsRows(settingsRead)
                               then MergedSettings(old(siteSettings), RowsOf(settingsRead.data))
                               else old(siteSettings))
      ensures updates == old(updates) + (if HasSettingsRows(settingsRead) then [SetSiteSettings] else [])
    {
      if settingsRead.Failed? {
        // logged only: the load goes on with the settings it has
      } else if settingsRead.data.Some? && |settingsRead.data.value| > 0 {
        var newSettings := MergeSettings(siteSettings, settingsRead.data.value);
        siteSettings := newSettings;
        updates := updates + [SetSiteSettings];
      }
    }

    /**
     * The `try` block of `loadData`: collections first, then products
     * resolved against the collections just converted, then the settings.
     * A failed table read throws, and what was set before it stays set.
     */
    method ReadTables(collectionsRead: Fetch, productsRead: Fetch, settingsRead: Fetch) returns (thrown: Option<LoadError>)
      modifies this`collections, this`products, this`siteSettings, this`updates
      ensures thrown == Thrown(collectionsRead, productsRead)
      ensures collections == (if collectionsRead.Failed? then old(collections)
                              else ConvertCollections(RowsOf(collectionsRead.data)))
      ensures products == (if thrown.Some? then old(products)
                           else ConvertProducts(RowsOf(productsRead.data), collections))
      ensures siteSettings == (if SettingsMerged(collectionsRead, productsRead, settingsRead)
                               then MergedSettings(old(siteSettings), RowsOf(settingsRead.data))
                               else old(siteSettings))
      ensures updates == old(updates)
                         + (if collectionsRead.Fetched? then [SetCollections] else [])
                         + (if thrown.None? then [SetProducts] else [])
                         + (if SettingsMerged(collectionsRead, productsRead, settingsRead) then [SetSiteSettings] else [])
    {
      if collectionsRead.Failed? {
        return Some(collectionsRead.error);
      }
      var collectionsFormatted := ConvertCollections(RowsOf(collectionsRead.data));
      collections := collectionsFormatted;
      updates := updates + [SetCollections];
      if productsRead.Failed? {
        return Some(productsRead.error);
      }
      var productsFormatted := ConvertProducts(RowsOf(productsRead.data), collectionsFormatted);
      products := productsFormatted;
      updates := updates + [SetProducts];
      ApplySettingsRead(settingsRead);
      thrown := None;
    }

    /**
     * `loadData`, given the outcomes of the collections, products and settings
     * reads.  A failed collections read leaves all data as it was; a failed
     * products read comes after the collections were replaced; a failed
     * settings read is not an error.  Loading always ends.
     */
    method LoadData(collectionsRead: Fetch, productsRead: Fetch, settingsRead: Fetch)
      modifies this
      ensures !loading
      ensures error == (if collectionsRead.Failed? then Some(ErrorMessage(collectionsRead.error))
                        else if productsRead.Failed? then Some(ErrorMessage(productsRead.error))
                        else None)
      ensures collections == (if collectionsRead.Failed? then old(collections)
                              else ConvertCollections(RowsOf(collectionsRead.data)))
      ensures products == (if collectionsRead.Failed? || productsRead.Failed? then old(products)
                           else ConvertProducts(RowsOf(productsRead.data), collections))
      ensures siteSettings == (if SettingsMerged(collectionsRead, productsRead, settingsRead)
                               then MergedSettings(old(siteSettings), RowsOf(settingsRead.data))
                               else old(siteSettings))
      ensures updates == old(updates) + [SetLoading(true), SetError(None)]
                         + (if collectionsRead.Fetched? then [SetCollections] else [])
                         + (if error.None? then [SetProducts] else [])
                         + (if SettingsMerged(collectionsRead, productsRead, settingsRead) then [SetSiteSettings] else [])
                         + (if error.Some? then [SetError(error)] else [])
                         + [SetLoading(false)]
    {
      loading := true;
      updates := updates + [SetLoading(true)];
      error := None;
      updates := updates + [SetError(None)];
      assert updates == old(updates) + [SetLoading(true), SetError(None)];
      var thrown := ReadTables(collectionsRead, productsRead, settingsRead);
      if thrown.Some? {
        error := Some(ErrorMessage(thrown.value));
        updates := updates + [SetError(error)];
      }
      loading := false;
      updates := updates + [SetLoading(false)];
    }

    /**
     * `addProduct`: resolves the collection name exactly against the loaded
     * collections and fails before any write when none has it.
     */
    method AddProduct(data: NewProduct) returns (r: Result<WriteRequest, string>)
      ensures r.Failure? <==> NoneNamed(collections, data.collection)
      ensures r.Failure? ==> r.error == CollectionNotFound
      ensures r.Success? ==> exists i: nat :: FirstNamed(collections, data.collection, i)
                                && r.value == Insert("products", NewProductRow(data, collections[i].id))
    {
      var found := FindByName(collections, data.collection);
      if found.None? {
        return Failure(CollectionNotFound);
      }
      var collection := collections[found.value];
      r := Success(Insert("products", NewProductRow(data, collection.id)));
      assert FirstNamed(collections, data.collection, found.value);
    }

    /**
     * `updateProduct`: a patch of the supplied members only, the collection
     * resolved to its id; fails before any write when that name matches no
     * collection.
     */
    method UpdateProduct(id: string, data: ProductPatch) returns (r: Result<WriteRequest, string>)
      ensures r.Failure? <==> data.collection.Some? && NoneNamed(collections, data.collection.value)
      ensures r.Failure? ==> r.error == CollectionNotFound
      ensures r.Success? ==> r.value.Update? && r.value.table == "products" && r.value.id == id
                             && IsProductPatch(collections, data, r.value.patch)
    {
      var updateData := ProductFieldPatch(data);
      if data.collection.Some? {
        var found := FindByName(collections, data.collection.value);
        if found.None? {
          return Failure(CollectionNotFound);
        }
        CollectionIdKeepsFields(data, updateData, collections[found.value].id);
        updateData := updateData["collection_id" := collections[found.value].id];
        assert FirstNamed(collections, data.collection.value, found.value);
      }
      r := Success(Update("products", updateData, id));
    }

    /** `deleteProduct`: deletes the row with that id. */
    method DeleteProduct(id: string) returns (r: WriteRequest)
      ensures r == Delete("products", id)
    {
      r := Delete("products", id);
    }

    /** `addCollection`: inserts the name, description and image. */
    method AddCollection(data: NewCollection) returns (r: WriteRequest)
      ensures r == Insert("collections", NewCollectionRow(data))
    {
      r := Insert("collections", NewCollectionRow(data));
    }

    /** `updateCollection`: a patch of the supplied members only. */
    method UpdateCollection(id: string, data: CollectionPatch) returns (r: WriteRequest)
      ensures r.Update? && r.table == "collections" && r.id == id && IsCollectionPatch(data, r.patch)
    {
      var updateData: Row := map[];
      if data.name.Some? { updateData := updateData["name" := Str(data.name.value)]; }
      if data.description.Some? { updateData := updateData["description" := Str(data.description.value)]; }
      if data.image.Some? { updateData := updateData["image" := Str(data.image.value)]; }
      r := Update("collections", updateData, id);
    }

    /** `deleteCollection`: deletes the row; dependent products go by the service's cascade. */
    method DeleteCollection(id: string) returns (r: WriteRequest)
      ensures r == Delete("collections", id)
    {
      r := Delete("collections", id);
    }

    /** `updateHeroProduct`: replaces the whole `hero_product` value with the one given. */
    method UpdateHeroProduct(heroProduct: Value) returns (r: WriteRequest)
      ensures r == Upsert("site_settings", SettingsRow("hero_product", heroProduct), Some("key"))
    {
      r := Upsert("site_settings", SettingsRow("hero_product", heroProduct), Some("key"));
    }

    /**
     * `updateSiteSettings`: writes nothing unless a non-empty brand name or
     * tagline is given; otherwise writes both, each the given value when
     * non-empty and the current one when not.
     */
    method UpdateSiteSettings(settings: SettingsPatch) returns (r: Option<WriteRequest>)
      ensures r.None? <==> !Supplied(settings.brandName) && !Supplied(settings.tagline)
      ensures r.Some? ==> r.value == Upsert("site_settings", SettingsRow("brand_settings", BrandToJson(BrandSettings(
                (if Supplied(settings.brandName) then settings.brandName.value else siteSettings.brandName),
                (if Supplied(settings.tagline) then settings.tagline.value else siteSettings.tagline)))), None)
    {
      if Supplied(settings.brandName) || Supplied(settings.tagline) {
        var brandName := if Supplied(settings.brandName) then settings.brandName.value else siteSettings.brandName;
        var tagline := if Supplied(settings.tagline) then settings.tagline.value else siteSettings.tagline;
        r := Some(Upsert("site_settings", SettingsRow("brand_settings", BrandToJson(BrandSettings(brandName, tagline))), None));
      } else {
        r := None;
      }
    }
  }
}
