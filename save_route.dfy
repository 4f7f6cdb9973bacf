/**
 * The save route (src/app/api/save-product/route.ts): it receives the
 * flattened enrichment, looks up the stored product by the id the
 * enrichment carries, builds the update from the stored identity fields and
 * the coerced enrichable fields, drops undefined entries, writes the row and
 * answers with the updated row read back as a Product.
 */
module SaveProductRoute {
  import opened Wrappers
  import opened JsValues
  import opened Http
  import opened ProductTypes
  import opened Columns
  import opened StoreColumns
  import opened FieldRules

  const InvalidIdMessage: string := "Missing or invalid product ID from AI response"
  const NotFoundMessage: string := "Product not found for update with the provided ID."

  /**
   * A numeric id names a stored product. Ids are integers, so a number with
   * a fractional part names none.
   */
  predicate StoredId(store: Store, n: real) {
    n == n.Floor as real && n.Floor in store
  }

  /**
   * `updateData`: the identity fields of the stored product, and the
   * enrichable fields of the payload with their coercions.
   */
  function UpdateData(original: Row, e: JsValue, parse: NumberParser): (u: RowUpdate)
    requires !Nullish(e)
    ensures forall c :: Entry(u, c).Some?
    ensures NoUndefined(u)
  {
    RowUpdate(
      Some(Str(original.productName)),
      Some(Str(original.brand)),
      Some(StrOrNull(original.barcode)),
      Some(StrArr(original.images)),
      Some(Coalesce(Field(e, "description"), Null)),
      Some(NumberOrNull(Field(e, "itemWeight"), parse)),
      Some(Coalesce(Field(e, "weightUnit"), Null)),
      Some(ArrayOrEmpty(Field(e, "ingredients"))),
      Some(StorageList(Field(e, "storage"))),
      Some(NumberOrNull(Field(e, "itemsPerPack"), parse)),
      Some(Coalesce(Field(e, "color"), Null)),
      Some(Coalesce(Field(e, "material"), Null)),
      Some(NumberOrNull(Field(e, "width"), parse)),
      Some(Coalesce(Field(e, "widthUnit"), Null)),
      Some(NumberOrNull(Field(e, "height"), parse)),
      Some(Coalesce(Field(e, "heightUnit"), Null)),
      Some(NumberOrNull(Field(e, "warranty"), parse)))
  }

  /** An entry whose value is undefined. */
  predicate IsUndefined(entry: Option<JsValue>) {
    entry.Some? && entry.value.Undefined?
  }

  /** No entry of the update is undefined. */
  predicate NoUndefined(u: RowUpdate) {
    && !IsUndefined(u.productName) && !IsUndefined(u.brand) && !IsUndefined(u.barcode)
    && !IsUndefined(u.images) && !IsUndefined(u.description) && !IsUndefined(u.itemWeight)
    && !IsUndefined(u.weightUnit) && !IsUndefined(u.ingredients) && !IsUndefined(u.storage)
    && !IsUndefined(u.itemsPerPack) && !IsUndefined(u.color) && !IsUndefined(u.material)
    && !IsUndefined(u.width) && !IsUndefined(u.widthUnit) && !IsUndefined(u.height)
    && !IsUndefined(u.heightUnit) && !IsUndefined(u.warranty)
  }

  /** An entry without its undefined value: a key whose value is undefined is left out. */
  function Defined(entry: Option<JsValue>): (r: Option<JsValue>)
    ensures !IsUndefined(r)
    ensures !IsUndefined(entry) ==> r == entry
  {
    if IsUndefined(entry) then None else entry
  }

  /** `cleanUpdateData`: the entries whose value is not undefined; null and the other falsy values stay. */
  function DropUndefined(u: RowUpdate): (r: RowUpdate)
    ensures NoUndefined(r)
  {
    RowUpdate(
      Defined(u.productName), Defined(u.brand), Defined(u.barcode), Defined(u.images),
      Defined(u.description), Defined(u.itemWeight), Defined(u.weightUnit),
      Defined(u.ingredients), Defined(u.storage), Defined(u.itemsPerPack), Defined(u.color),
      Defined(u.material), Defined(u.width), Defined(u.widthUnit), Defined(u.height),
      Defined(u.heightUnit), Defined(u.warranty))
  }

  /** The clean step keeps every entry except the undefined ones. */
  lemma DropUndefinedEntry(u: RowUpdate, c: ColumnName)
    ensures Entry(DropUndefined(u), c).Some? <==> Entry(u, c).Some? && !Entry(u, c).value.Undefined?
    ensures Entry(DropUndefined(u), c).Some? ==> Entry(DropUndefined(u), c) == Entry(u, c)
  {
  }

  /** The clean step removes nothing from an update without undefined values, such as the route's. */
  lemma DropUndefinedKeepsDefined(u: RowUpdate)
    requires NoUndefined(u)
    ensures DropUndefined(u) == u
  {
  }

  /** A value `?? null` stores in a nullable string column: a string, or undefined or null. */
  predicate StringOrNullish(v: JsValue) {
    Nullish(v) || v.Str?
  }

  /** A list field whose normalised form holds only strings. */
  predicate OnlyStrings(list: JsValue)
    requires list.Arr?
  {
    forall i :: 0 <= i < |list.items| ==> list.items[i].Str?
  }

  /**
   * The payload's enrichable fields have the types of their columns once
   * coerced. The identity columns come from the store and the numeric ones
   * are converted with Number(), so only the string and list fields can fail.
   */
  predicate WellTyped(e: JsValue)
    requires !Nullish(e)
  {
    && StringOrNullish(Field(e, "description"))
    && StringOrNullish(Field(e, "weightUnit"))
    && StringOrNullish(Field(e, "color"))
    && StringOrNullish(Field(e, "material"))
    && StringOrNullish(Field(e, "widthUnit"))
    && StringOrNullish(Field(e, "heightUnit"))
    && OnlyStrings(ArrayOrEmpty(Field(e, "ingredients")))
    && OnlyStrings(StorageList(Field(e, "storage")))
  }

  /** The nullable string a `v ?? null` field is stored as. */
  function NullableString(v: JsValue): Option<string> {
    if v.Str? then Some(v.s) else None
  }

  /** The nullable number a `v !== undefined ? Number(v) : null` field is stored as. */
  function NullableNumber(v: JsValue, parse: NumberParser): Option<real> {
    if v.Undefined? then None else Some(ToNumber(v, parse))
  }

  /** The strings of a list of strings. */
  function Strings(list: JsValue): seq<string>
    requires list.Arr? && OnlyStrings(list)
  {
    seq(|list.items|, i requires 0 <= i < |list.items| => list.items[i].s)
  }

  /**
   * The stored row after the route's update, or None when the store rejects
   * it. The clean step removes nothing from the update
   * (DropUndefinedKeepsDefined), so the update is written as built.
   */
  function Updated(original: Row, e: JsValue, parse: NumberParser): Option<Row>
    requires !Nullish(e)
  {
    WriteRow(original, UpdateData(original, e, parse))
  }

  /** The store accepts the route's update exactly when the payload is well typed. */
  lemma {:induction false} UpdateAccepted(original: Row, e: JsValue, parse: NumberParser)
    requires !Nullish(e)
    ensures Updated(original, e, parse).Some? <==> WellTyped(e)
  {
    ColumnsReadBackTheirValues(original.productName, original.barcode, None, original.images);
    ColumnsReadBackTheirValues(original.brand, None, None, []);
  }

  /** The route's update keeps the stored row's id and identity fields. */
  lemma {:induction false} UpdateKeepsIdentity(original: Row, e: JsValue, parse: NumberParser)
    requires !Nullish(e)
    ensures Updated(original, e, parse).Some? ==>
      var row := Updated(original, e, parse).value;
      && row.id == original.id && row.productName == original.productName && row.brand == original.brand
      && row.barcode == original.barcode && row.images == original.images
  {
    ColumnsReadBackTheirValues(original.productName, original.barcode, None, original.images);
    ColumnsReadBackTheirValues(original.brand, None, None, []);
  }

  /**
   * The route's update replaces every nullable string column by the
   * payload's field: a missing or null field clears its column.
   */
  lemma {:induction false} UpdateWritesStrings(original: Row, e: JsValue, parse: NumberParser)
    requires !Nullish(e) && WellTyped(e)
    ensures Updated(original, e, parse).Some?
    ensures var row := Updated(original, e, parse).value;
      && row.description == NullableString(Field(e, "description"))
      && row.weightUnit == NullableString(Field(e, "weightUnit"))
      && row.color == NullableString(Field(e, "color"))
      && row.material == NullableString(Field(e, "material"))
      && row.widthUnit == NullableString(Field(e, "widthUnit"))
      && row.heightUnit == NullableString(Field(e, "heightUnit"))
  {
    UpdateAccepted(original, e, parse);
  }

  /**
   * The route's update replaces every numeric column by Number() of the
   * payload's field, and clears it when the field is missing.
   */
  lemma {:induction false} UpdateWritesNumbers(original: Row, e: JsValue, parse: NumberParser)
    requires !Nullish(e) && WellTyped(e)
    ensures Updated(original, e, parse).Some?
    ensures var row := Updated(original, e, parse).value;
      && row.itemWeight == NullableNumber(Field(e, "itemWeight"), parse)
      && row.itemsPerPack == NullableNumber(Field(e, "itemsPerPack"), parse)
      && row.width == NullableNumber(Field(e, "width"), parse)
      && row.height == NullableNumber(Field(e, "height"), parse)
      && row.warranty == NullableNumber(Field(e, "warranty"), parse)
  {
    UpdateAccepted(original, e, parse);
  }

  /** The route's update replaces the two list columns by the payload's normalised lists. */
  lemma {:induction false} UpdateWritesLists(original: Row, e: JsValue, parse: NumberParser)
    requires !Nullish(e) && WellTyped(e)
    ensures Updated(original, e, parse).Some?
    ensures var row := Updated(original, e, parse).value;
      && row.ingredients == Strings(ArrayOrEmpty(Field(e, "ingredients")))
      && row.storage == Strings(StorageList(Field(e, "storage")))
  {
    UpdateAccepted(original, e, parse);
    var ingredients := ArrayOrEmpty(Field(e, "ingredients"));
    var storage := StorageList(Field(e, "storage"));
    assert StringListColumn(ingredients).value == Strings(ingredients);
    assert StringListColumn(storage).value == Strings(storage);
  }

  /** What the route returns, and the store after it. */
  datatype SaveOutcome = SaveOutcome(response: Result<Product, Failure>, store: Store)

  /**
   * The route for request body `body`, with `reachable` saying whether the
   * store answers its queries. Reading a property of an undefined or null
   * body or payload throws, and the route answers 500 with the exception's
   * text, as it does when the lookup or the update throws because the store
   * cannot be reached, or when the store rejects the update.
   */
  function SaveProduct(store: Store, body: JsValue, parse: NumberParser, reachable: bool): (r: SaveOutcome)
    ensures r.response.Err? ==> r.store == store && !IsOk(r.response.error.status)
    ensures r.response.Ok? ==>
      var id := r.response.value.id;
      && id in store && r.store.Keys == store.Keys
      && (forall k :: k in store && k != id ==> r.store[k] == store[k])
      && r.response.value == RowToProduct(r.store[id])
      && r.store[id].productName == store[id].productName
      && r.store[id].brand == store[id].brand
      && r.store[id].barcode == store[id].barcode
      && r.store[id].images == store[id].images
  {
    match Member(body, "enriched")
    case None => SaveOutcome(Err(Failure(500, Thrown(""))), store)
    case Some(e) =>
      match Member(e, "id")
      case None => SaveOutcome(Err(Failure(500, Thrown(""))), store)
      case Some(productId) =>
        if !productId.Num? then
          SaveOutcome(Err(Failure(400, Text(InvalidIdMessage))), store)
        else if !reachable then
          SaveOutcome(Err(Failure(500, Thrown(""))), store)
        else if !StoredId(store, productId.n) then
          SaveOutcome(Err(Failure(404, Text(NotFoundMessage))), store)
        else
          var id := productId.n.Floor;
          var original := store[id];
          var updateData := UpdateData(original, e, parse);
          var cleanUpdateData := DropUndefined(updateData);
          DropUndefinedKeepsDefined(updateData);
          match WriteRow(original, cleanUpdateData)
          case None => SaveOutcome(Err(Failure(500, Thrown(""))), store)
          case Some(updated) =>
            UpdateKeepsIdentity(original, e, parse);
            SaveOutcome(Ok(RowToProduct(updated)), store[id := updated])
  }

  /** A payload whose id is not a number is refused with 400 and nothing is written. */
  lemma SaveRejectsNonNumericId(store: Store, body: JsValue, parse: NumberParser, reachable: bool, e: JsValue)
    requires Member(body, "enriched") == Some(e) && !Nullish(e) && !Field(e, "id").Num?
    ensures SaveProduct(store, body, parse, reachable) == SaveOutcome(Err(Failure(400, Text(InvalidIdMessage))), store)
  {
  }

  /**
   * With a numeric id, a store that cannot be reached makes the lookup throw:
   * 500, and nothing is written, whether or not the id is stored.
   */
  lemma SaveFailsWhenUnreachable(store: Store, body: JsValue, parse: NumberParser, e: JsValue)
    requires Member(body, "enriched") == Some(e) && !Nullish(e) && Field(e, "id").Num?
    ensures SaveProduct(store, body, parse, false) == SaveOutcome(Err(Failure(500, Thrown(""))), store)
  {
  }

  /** With the store reachable, a numeric id that names no stored product is refused with 404 and nothing is written. */
  lemma SaveRejectsUnknownId(store: Store, body: JsValue, parse: NumberParser, e: JsValue)
    requires Member(body, "enriched") == Some(e) && !Nullish(e)
    requires Field(e, "id").Num? && !StoredId(store, Field(e, "id").n)
    ensures SaveProduct(store, body, parse, true) == SaveOutcome(Err(Failure(404, Text(NotFoundMessage))), store)
  {
  }

  /**
   * For a stored id the route succeeds exactly when the store can be reached
   * and the payload is well typed; it then writes the payload's enrichable fields into that row only,
   * keeps the row's identity fields, and answers with the row read back.
   */
  lemma SaveWritesEnrichment(store: Store, body: JsValue, parse: NumberParser, reachable: bool, e: JsValue)
    requires Member(body, "enriched") == Some(e) && !Nullish(e)
    requires Field(e, "id").Num? && StoredId(store, Field(e, "id").n)
    ensures var r := SaveProduct(store, body, parse, reachable);
      && (r.response.Ok? <==> reachable && WellTyped(e))
      && (r.response.Ok? ==>
            var id := Field(e, "id").n.Floor;
            && r.response.value.id == id
            && r.store == store[id := Updated(store[id], e, parse).value])
  {
    var id := Field(e, "id").n.Floor;
    UpdateAccepted(store[id], e, parse);
  }

  /**
   * The save response's Measures: each is present exactly when the payload
   * gives both its number and its unit (a null number counts as given, and
   * becomes 0), and it then holds them.
   */
  lemma SavedMeasures(store: Store, body: JsValue, parse: NumberParser, reachable: bool, e: JsValue)
    requires Member(body, "enriched") == Some(e) && !Nullish(e)
    requires Field(e, "id").Num? && StoredId(store, Field(e, "id").n)
    requires SaveProduct(store, body, parse, reachable).response.Ok?
    ensures var p := SaveProduct(store, body, parse, reachable).response.value;
      && (p.itemWeight.Some? <==> !Field(e, "itemWeight").Undefined? && Field(e, "weightUnit").Str?)
      && (p.itemWeight.Some? ==> p.itemWeight.value == Measure(ToNumber(Field(e, "itemWeight"), parse), Field(e, "weightUnit").s))
      && (p.width.Some? <==> !Field(e, "width").Undefined? && Field(e, "widthUnit").Str?)
      && (p.width.Some? ==> p.width.value == Measure(ToNumber(Field(e, "width"), parse), Field(e, "widthUnit").s))
      && (p.height.Some? <==> !Field(e, "height").Undefined? && Field(e, "heightUnit").Str?)
      && (p.height.Some? ==> p.height.value == Measure(ToNumber(Field(e, "height"), parse), Field(e, "heightUnit").s))
  {
    SaveWritesEnrichment(store, body, parse, reachable, e);
    var id := Field(e, "id").n.Floor;
    UpdateWritesStrings(store[id], e, parse);
    UpdateWritesNumbers(store[id], e, parse);
  }
}
