/**
 * The product card (src/components/ProductCard.tsx): its enrich button asks
 * the enrichment route for an enrichment of the displayed product, flattens
 * the reply into the save route's payload, saves it and displays the saved
 * product. The two fetches are the route functions of this model applied to
 * the request; the completion service, JSON.stringify of the product and
 * JSON.parse of the completion are parameters. The enrichment route's request
 * to the completion service is BuildRequest of the serialised product and
 * nothing else, so the service is given as the reply it makes to the request
 * for each serialised product.
 */
module ProductCardComponent {
  import opened Wrappers
  import opened JsValues
  import opened Http
  import opened ProductTypes
  import opened Columns
  import opened FieldRules
  import opened Completion
  import opened EnrichRoute
  import opened SaveProductRoute
  import opened CardPayload

  /** The save route's request body, `{ enriched: dataForSaveAPI }`. */
  function SaveBody(data: JsValue): (body: JsValue)
    ensures Member(body, "enriched") == Some(data)
  {
    Obj(map["enriched" := data])
  }

  /** What one press of the enrich button leads to: the saved product, when both calls succeed, and the store after it. */
  datatype EnrichOutcome = EnrichOutcome(saved: Option<Product>, store: Store)

  /**
   * The enrichment of `product`: the card's request to the enrichment route
   * (the product serialised by `stringify`), the completion service's reply
   * to the route's request for it, the flattened payload, and the save route's
   * answer. Every error response fails `res.ok` (RespondErrorsAreNotOk and
   * the contract of SaveProduct), so any failure of either call, or a
   * TypeError on a null enrichment, leaves nothing saved.
   */
  function EnrichAndSave(
    product: Product, service: string -> Upstream, stringify: Product -> string,
    decode: JsonParser, parse: NumberParser, store: Store, reachable: bool): (r: EnrichOutcome)
    ensures r.saved.None? ==> r.store == store
    ensures r.saved.Some? ==>
      var id := r.saved.value.id;
      && id in store && r.store.Keys == store.Keys
      && (forall k :: k in store && k != id ==> r.store[k] == store[k])
      && r.saved.value == RowToProduct(r.store[id])
      && r.saved.value.productName == store[id].productName && r.saved.value.brand == store[id].brand
      && r.saved.value.barcode == store[id].barcode && r.saved.value.images == Some(store[id].images)
  {
    match Respond(service(stringify(product)), decode)
    case Err(_) => EnrichOutcome(None, store)
    case Ok(enriched) =>
      match DataForSave(enriched, parse)
      case None => EnrichOutcome(None, store)
      case Some(data) =>
        var saveRes := SaveProduct(store, SaveBody(data), parse, reachable);
        match saveRes.response
        case Err(_) => EnrichOutcome(None, store)
        case Ok(savedProduct) => EnrichOutcome(Some(savedProduct), saveRes.store)
  }

  /**
   * The save route's answer to the card's payload for enrichment `e`: it
   * succeeds exactly when `e` echoes a numeric id, the store can be reached,
   * the id is that of a stored product and the flattened fields have their
   * columns' types, and it then writes the row with that id.
   */
  lemma {:induction false} CardSaveTarget(store: Store, e: JsValue, d: JsValue, parse: NumberParser, reachable: bool)
    requires !Nullish(e) && !Nullish(d) && Reads(d, Flatten(e, parse))
    ensures var r := SaveProduct(store, SaveBody(d), parse, reachable);
      && (r.response.Ok? <==> Field(e, "id").Num? && reachable && StoredId(store, Field(e, "id").n) && WellTyped(d))
      && (r.response.Ok? ==> Field(e, "id") == Num(r.response.value.id as real))
  {
    if !Field(e, "id").Num? {
      SaveRejectsNonNumericId(store, SaveBody(d), parse, reachable, d);
    } else if !reachable {
      SaveFailsWhenUnreachable(store, SaveBody(d), parse, d);
    } else if !StoredId(store, Field(e, "id").n) {
      SaveRejectsUnknownId(store, SaveBody(d), parse, d);
    } else {
      SaveWritesEnrichment(store, SaveBody(d), parse, reachable, d);
    }
  }

  /** The number a numeric field of the enrichment is stored as: Number() of it, or 0 where the field is missing. */
  function StoredNumber(v: JsValue, parse: NumberParser): real {
    if v.Undefined? then 0.0 else ToNumber(v, parse)
  }

  /**
   * After a save from the card no Measure value column is null: the card
   * sends null for a missing number and the save route stores Number(null),
   * which is 0.
   */
  lemma {:induction false} CardSaveMeasureValues(store: Store, e: JsValue, d: JsValue, parse: NumberParser, reachable: bool)
    requires !Nullish(e) && !Nullish(d) && Reads(d, Flatten(e, parse))
    requires SaveProduct(store, SaveBody(d), parse, reachable).response.Ok?
    ensures var r := SaveProduct(store, SaveBody(d), parse, reachable);
      var row := r.store[r.response.value.id];
      && row.itemWeight == Some(StoredNumber(OptionalMember(Field(e, "itemWeight"), "value"), parse))
      && row.width == Some(StoredNumber(OptionalMember(Field(e, "width"), "value"), parse))
      && row.height == Some(StoredNumber(OptionalMember(Field(e, "height"), "value"), parse))
  {
    CardSaveTarget(store, e, d, parse, reachable);
    var id := Field(e, "id").n.Floor;
    SaveWritesEnrichment(store, SaveBody(d), parse, reachable, d);
    UpdateFromCardMeasureValues(store[id], e, d, parse);
  }

  /** The update a card payload makes to a row writes the stored number into each Measure value column. */
  lemma {:induction false} UpdateFromCardMeasureValues(original: Row, e: JsValue, d: JsValue, parse: NumberParser)
    requires !Nullish(e) && !Nullish(d) && Reads(d, Flatten(e, parse)) && WellTyped(d)
    ensures Updated(original, d, parse).Some?
    ensures var row := Updated(original, d, parse).value;
      && row.itemWeight == Some(StoredNumber(OptionalMember(Field(e, "itemWeight"), "value"), parse))
      && row.width == Some(StoredNumber(OptionalMember(Field(e, "width"), "value"), parse))
      && row.height == Some(StoredNumber(OptionalMember(Field(e, "height"), "value"), parse))
  {
    UpdateWritesNumbers(original, d, parse);
  }

  /**
   * After a save from the card the pack size and the warranty are not null
   * either. A warranty that is not a number, such as the string "2", is
   * stored as 0.
   */
  lemma {:induction false} CardSaveCounts(store: Store, e: JsValue, d: JsValue, parse: NumberParser, reachable: bool)
    requires !Nullish(e) && !Nullish(d) && Reads(d, Flatten(e, parse))
    requires SaveProduct(store, SaveBody(d), parse, reachable).response.Ok?
    ensures var r := SaveProduct(store, SaveBody(d), parse, reachable);
      var row := r.store[r.response.value.id];
      && row.itemsPerPack == Some(StoredNumber(Field(e, "itemsPerPack"), parse))
      && row.warranty == Some(if Field(e, "warranty").Num? then Field(e, "warranty").n else 0.0)
  {
    CardSaveTarget(store, e, d, parse, reachable);
    var id := Field(e, "id").n.Floor;
    SaveWritesEnrichment(store, SaveBody(d), parse, reachable, d);
    UpdateWritesNumbers(store[id], d, parse);
  }

  /**
   * After a save from the card a falsy description is stored as the empty
   * string, a falsy colour or material as null, and a missing or null unit as
   * null; a truthy one of them is a string, stored as it is.
   */
  lemma {:induction false} CardSaveStrings(store: Store, e: JsValue, d: JsValue, parse: NumberParser, reachable: bool)
    requires !Nullish(e) && !Nullish(d) && Reads(d, Flatten(e, parse))
    requires SaveProduct(store, SaveBody(d), parse, reachable).response.Ok?
    ensures var r := SaveProduct(store, SaveBody(d), parse, reachable);
      var row := r.store[r.response.value.id];
      var description, color, material := Field(e, "description"), Field(e, "color"), Field(e, "material");
      var weightUnit := OptionalMember(Field(e, "itemWeight"), "unit");
      var widthUnit := OptionalMember(Field(e, "width"), "unit");
      var heightUnit := OptionalMember(Field(e, "height"), "unit");
      && (Truthy(description) ==> description.Str? && row.description == Some(description.s))
      && (!Truthy(description) ==> row.description == Some(""))
      && (Truthy(color) ==> color.Str? && row.color == Some(color.s))
      && (!Truthy(color) ==> row.color == None)
      && (Truthy(material) ==> material.Str? && row.material == Some(material.s))
      && (!Truthy(material) ==> row.material == None)
      && (Nullish(weightUnit) ==> row.weightUnit == None)
      && (!Nullish(weightUnit) ==> weightUnit.Str? && row.weightUnit == Some(weightUnit.s))
      && (Nullish(widthUnit) ==> row.widthUnit == None)
      && (!Nullish(widthUnit) ==> widthUnit.Str? && row.widthUnit == Some(widthUnit.s))
      && (Nullish(heightUnit) ==> row.heightUnit == None)
      && (!Nullish(heightUnit) ==> heightUnit.Str? && row.heightUnit == Some(heightUnit.s))
  {
    CardSaveTarget(store, e, d, parse, reachable);
    var id := Field(e, "id").n.Floor;
    SaveWritesEnrichment(store, SaveBody(d), parse, reachable, d);
    UpdateWritesStrings(store[id], d, parse);
  }

  /**
   * After a save from the card the ingredient and storage lists are the
   * enrichment's lists as the card normalises them; the save route's second
   * normalisation changes nothing.
   */
  lemma {:induction false} CardSaveLists(store: Store, e: JsValue, d: JsValue, parse: NumberParser, reachable: bool)
    requires !Nullish(e) && !Nullish(d) && Reads(d, Flatten(e, parse))
    requires SaveProduct(store, SaveBody(d), parse, reachable).response.Ok?
    ensures var r := SaveProduct(store, SaveBody(d), parse, reachable);
      var row := r.store[r.response.value.id];
      var ingredients, storage := ArrayOrEmpty(Field(e, "ingredients")), StorageList(Field(e, "storage"));
      && OnlyStrings(ingredients) && row.ingredients == SaveProductRoute.Strings(ingredients)
      && OnlyStrings(storage) && row.storage == SaveProductRoute.Strings(storage)
  {
    CardSaveTarget(store, e, d, parse, reachable);
    NormalisingTwiceIsOnce(Field(e, "ingredients"));
    NormalisingTwiceIsOnce(Field(e, "storage"));
    var id := Field(e, "id").n.Floor;
    SaveWritesEnrichment(store, SaveBody(d), parse, reachable, d);
    UpdateWritesLists(store[id], d, parse);
  }

  /**
   * The saved product's Measures: since the value column is never null after
   * a save from the card, each Measure is present exactly when the
   * enrichment gives its unit, and it then holds the stored number, 0 where
   * the enrichment gives a unit but no value.
   */
  lemma {:induction false} CardSaveMeasures(store: Store, e: JsValue, d: JsValue, parse: NumberParser, reachable: bool)
    requires !Nullish(e) && !Nullish(d) && Reads(d, Flatten(e, parse))
    requires SaveProduct(store, SaveBody(d), parse, reachable).response.Ok?
    ensures var p := SaveProduct(store, SaveBody(d), parse, reachable).response.value;
      var weight, width, height := Field(e, "itemWeight"), Field(e, "width"), Field(e, "height");
      && (p.itemWeight.Some? <==> !Nullish(OptionalMember(weight, "unit")))
      && (p.itemWeight.Some? ==>
            p.itemWeight.value == Measure(StoredNumber(OptionalMember(weight, "value"), parse), OptionalMember(weight, "unit").s))
      && (p.width.Some? <==> !Nullish(OptionalMember(width, "unit")))
      && (p.width.Some? ==>
            p.width.value == Measure(StoredNumber(OptionalMember(width, "value"), parse), OptionalMember(width, "unit").s))
      && (p.height.Some? <==> !Nullish(OptionalMember(height, "unit")))
      && (p.height.Some? ==>
            p.height.value == Measure(StoredNumber(OptionalMember(height, "value"), parse), OptionalMember(height, "unit").s))
  {
    CardSaveMeasureValues(store, e, d, parse, reachable);
    CardSaveStrings(store, e, d, parse, reachable);
  }

  /** A non-2xx reply of the completion service saves nothing. */
  lemma EnrichFailsOnUpstreamError(
    product: Product, service: string -> Upstream, stringify: Product -> string,
    decode: JsonParser, parse: NumberParser, store: Store, reachable: bool)
    requires !IsOk(service(stringify(product)).status)
    ensures EnrichAndSave(product, service, stringify, decode, parse, store, reachable) == EnrichOutcome(None, store)
  {
  }

  /**
   * An enrichment is saved exactly when the completion service answers 2xx
   * with a completion that decodes to a non-null enrichment, that enrichment
   * echoes the id of a stored product, the store can be reached, and its
   * flattened fields have their columns' types. The row written is the one whose id the enrichment
   * echoes, which need not be the displayed product's.
   */
  lemma {:induction false} EnrichSavedWhen(
    product: Product, service: string -> Upstream, stringify: Product -> string,
    decode: JsonParser, parse: NumberParser, store: Store, reachable: bool)
    ensures var up := service(stringify(product));
      var r := EnrichAndSave(product, service, stringify, decode, parse, store, reachable);
      && (r.saved.Some? <==>
            && IsOk(up.status) && decode(Extract(up.completion)).Some?
            && var e := decode(Extract(up.completion)).value;
            && !Nullish(e) && Field(e, "id").Num? && reachable && StoredId(store, Field(e, "id").n)
            && WellTyped(DataForSave(e, parse).value))
      && (r.saved.Some? ==> Field(decode(Extract(up.completion)).value, "id") == Num(r.saved.value.id as real))
  {
    var up := service(stringify(product));
    if IsOk(up.status) && decode(Extract(up.completion)).Some? {
      var e := decode(Extract(up.completion)).value;
      if !Nullish(e) {
        CardSaveTarget(store, e, DataForSave(e, parse).value, parse, reachable);
      }
    }
  }

  /** The card's state: the product it displays and whether an enrichment is under way. */
  class ProductCard {
    var product: Product
    var loading: bool

    constructor (initialProduct: Product)
      ensures product == initialProduct && !loading
    {
      product := initialProduct;
      loading := false;
    }

    /**
     * `handleEnrich`: the displayed product is replaced by the saved one
     * only when both calls succeed, and `loading` is false afterwards
     * whatever happened. The store after the save is returned.
     */
    method HandleEnrich(
      service: string -> Upstream, stringify: Product -> string,
      decode: JsonParser, parse: NumberParser, store: Store, reachable: bool) returns (store': Store)
      modifies this
      ensures !loading
      ensures var r := EnrichAndSave(old(product), service, stringify, decode, parse, store, reachable);
        && store' == r.store
        && product == (if r.saved.Some? then r.saved.value else old(product))
    {
      loading := true;
      var r := EnrichAndSave(product, service, stringify, decode, parse, store, reachable);
      if r.saved.Some? {
        product := r.saved.value;
      }
      store' := r.store;
      loading := false;
    }
  }
}
