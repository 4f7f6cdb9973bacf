/**
 * The save payload the product card builds from an enrichment
 * (`dataForSaveAPI` in src/components/ProductCard.tsx): one JSON value per
 * column of the store, sent as a JSON object keyed by the column names.
 */
module CardPayload {
  import opened Wrappers
  import opened JsValues
  import opened FieldRules

  /** The payload's values, one per key. */
  datatype SavePayload = SavePayload(
    id: JsValue,
    productName: JsValue,
    brand: JsValue,
    barcode: JsValue,
    images: JsValue,
    description: JsValue,
    itemWeight: JsValue,
    weightUnit: JsValue,
    ingredients: JsValue,
    storage: JsValue,
    itemsPerPack: JsValue,
    color: JsValue,
    material: JsValue,
    width: JsValue,
    widthUnit: JsValue,
    height: JsValue,
    heightUnit: JsValue,
    warranty: JsValue)

  /** The payload as the JSON object the card sends. */
  function Payload(p: SavePayload): (d: JsValue)
    ensures d.Obj?
  {
    Obj(map[
      "id" := p.id,
      "productName" := p.productName,
      "brand" := p.brand,
      "barcode" := p.barcode,
      "images" := p.images,
      "description" := p.description,
      "itemWeight" := p.itemWeight,
      "weightUnit" := p.weightUnit,
      "ingredients" := p.ingredients,
      "storage" := p.storage,
      "itemsPerPack" := p.itemsPerPack,
      "color" := p.color,
      "material" := p.material,
      "width" := p.width,
      "widthUnit" := p.widthUnit,
      "height" := p.height,
      "heightUnit" := p.heightUnit,
      "warranty" := p.warranty])
  }

  /** `d` holds the values of `p` under their keys. */
  predicate Reads(d: JsValue, p: SavePayload)
    requires !Nullish(d)
  {
    Reads0(d, p) && Reads1(d, p) && Reads2(d, p) && Reads3(d, p) && Reads4(d, p) && Reads5(d, p)
  }

  /** The keys of `p` in groups of three, each group proved on its own. */
  predicate Reads0(d: JsValue, p: SavePayload)
    requires !Nullish(d)
  {
    && Field(d, "id") == p.id
    && Field(d, "productName") == p.productName
    && Field(d, "brand") == p.brand
  }

  predicate Reads1(d: JsValue, p: SavePayload)
    requires !Nullish(d)
  {
    && Field(d, "barcode") == p.barcode
    && Field(d, "images") == p.images
    && Field(d, "description") == p.description
  }

  predicate Reads2(d: JsValue, p: SavePayload)
    requires !Nullish(d)
  {
    && Field(d, "itemWeight") == p.itemWeight
    && Field(d, "weightUnit") == p.weightUnit
    && Field(d, "ingredients") == p.ingredients
  }

  predicate Reads3(d: JsValue, p: SavePayload)
    requires !Nullish(d)
  {
    && Field(d, "storage") == p.storage
    && Field(d, "itemsPerPack") == p.itemsPerPack
    && Field(d, "color") == p.color
  }

  predicate Reads4(d: JsValue, p: SavePayload)
    requires !Nullish(d)
  {
    && Field(d, "material") == p.material
    && Field(d, "width") == p.width
    && Field(d, "widthUnit") == p.widthUnit
  }

  predicate Reads5(d: JsValue, p: SavePayload)
    requires !Nullish(d)
  {
    && Field(d, "height") == p.height
    && Field(d, "heightUnit") == p.heightUnit
    && Field(d, "warranty") == p.warranty
  }

  lemma PayloadReads0(p: SavePayload)
    ensures Reads0(Payload(p), p)
  {
    var d := Payload(p);
    assert "id" in d.fields && d.fields["id"] == p.id && "productName" in d.fields && d.fields["productName"] == p.productName && "brand" in d.fields && d.fields["brand"] == p.brand;
  }

  lemma PayloadReads1(p: SavePayload)
    ensures Reads1(Payload(p), p)
  {
    var d := Payload(p);
    assert "barcode" in d.fields && d.fields["barcode"] == p.barcode && "images" in d.fields && d.fields["images"] == p.images && "description" in d.fields && d.fields["description"] == p.description;
  }

  lemma PayloadReads2(p: SavePayload)
    ensures Reads2(Payload(p), p)
  {
    var d := Payload(p);
    assert "itemWeight" in d.fields && d.fields["itemWeight"] == p.itemWeight && "weightUnit" in d.fields && d.fields["weightUnit"] == p.weightUnit && "ingredients" in d.fields && d.fields["ingredients"] == p.ingredients;
  }

  lemma PayloadReads3(p: SavePayload)
    ensures Reads3(Payload(p), p)
  {
    var d := Payload(p);
    assert "storage" in d.fields && d.fields["storage"] == p.storage && "itemsPerPack" in d.fields && d.fields["itemsPerPack"] == p.itemsPerPack && "color" in d.fields && d.fields["color"] == p.color;
  }

  lemma PayloadReads4(p: SavePayload)
    ensures Reads4(Payload(p), p)
  {
    var d := Payload(p);
    assert "material" in d.fields && d.fields["material"] == p.material && "width" in d.fields && d.fields["width"] == p.width && "widthUnit" in d.fields && d.fields["widthUnit"] == p.widthUnit;
  }

  lemma PayloadReads5(p: SavePayload)
    ensures Reads5(Payload(p), p)
  {
    var d := Payload(p);
    assert "height" in d.fields && d.fields["height"] == p.height && "heightUnit" in d.fields && d.fields["heightUnit"] == p.heightUnit && "warranty" in d.fields && d.fields["warranty"] == p.warranty;
  }

  /** Each key of the payload object reads back its value. */
  lemma PayloadReads(p: SavePayload)
    ensures Reads(Payload(p), p)
  {
    PayloadReads0(p);
    PayloadReads1(p);
    PayloadReads2(p);
    PayloadReads3(p);
    PayloadReads4(p);
    PayloadReads5(p);
  }

  /** `enriched.m?.value !== undefined ? Number(enriched.m.value) : null`: the value column of Measure field `m`. */
  function MeasureValue(e: JsValue, m: string, parse: NumberParser): (r: JsValue)
    requires !Nullish(e)
    ensures r.Null? <==> OptionalMember(Field(e, m), "value").Undefined?
    ensures !r.Null? ==> r == Num(ToNumber(OptionalMember(Field(e, m), "value"), parse))
  {
    NumberOrNull(OptionalMember(Field(e, m), "value"), parse)
  }

  /** `enriched.m?.unit ?? null`: the unit column of Measure field `m`. */
  function MeasureUnit(e: JsValue, m: string): (r: JsValue)
    requires !Nullish(e)
    ensures Nullish(OptionalMember(Field(e, m), "unit")) ==> r == Null
    ensures !Nullish(OptionalMember(Field(e, m), "unit")) ==> r == OptionalMember(Field(e, m), "unit")
  {
    Coalesce(OptionalMember(Field(e, m), "unit"), Null)
  }

  /** `typeof enriched.warranty === "number" ? enriched.warranty : null`. */
  function WarrantyOrNull(w: JsValue): (r: JsValue)
    ensures w.Num? ==> r == w
    ensures !w.Num? ==> r == Null
  {
    if w.Num? then w else Null
  }

  /**
   * The flattening of enrichment `e`: the id, name and brand as the
   * enrichment has them; a falsy barcode, image list, description, colour
   * or material replaced by its default; each Measure split into a value and
   * a unit, each decided from its own sub-field; the lists normalised; and a
   * warranty that is not a number dropped.
   */
  function Flatten(e: JsValue, parse: NumberParser): (p: SavePayload)
    requires !Nullish(e)
    ensures p.id == Field(e, "id") && p.productName == Field(e, "productName") && p.brand == Field(e, "brand")
    ensures !Truthy(Field(e, "barcode")) ==> p.barcode == Null
    ensures Truthy(Field(e, "barcode")) ==> p.barcode == Field(e, "barcode")
    ensures !Truthy(Field(e, "images")) ==> p.images == Arr([])
    ensures Truthy(Field(e, "images")) ==> p.images == Field(e, "images")
    ensures !Truthy(Field(e, "description")) ==> p.description == Str("")
    ensures Truthy(Field(e, "description")) ==> p.description == Field(e, "description")
    ensures !Truthy(Field(e, "color")) ==> p.color == Null
    ensures Truthy(Field(e, "color")) ==> p.color == Field(e, "color")
    ensures !Truthy(Field(e, "material")) ==> p.material == Null
    ensures Truthy(Field(e, "material")) ==> p.material == Field(e, "material")
    ensures p.itemWeight == MeasureValue(e, "itemWeight", parse) && p.weightUnit == MeasureUnit(e, "itemWeight")
    ensures p.width == MeasureValue(e, "width", parse) && p.widthUnit == MeasureUnit(e, "width")
    ensures p.height == MeasureValue(e, "height", parse) && p.heightUnit == MeasureUnit(e, "height")
    ensures p.ingredients == ArrayOrEmpty(Field(e, "ingredients")) && p.storage == StorageList(Field(e, "storage"))
    ensures p.itemsPerPack.Null? <==> Field(e, "itemsPerPack").Undefined?
    ensures !p.itemsPerPack.Null? ==> p.itemsPerPack == Num(ToNumber(Field(e, "itemsPerPack"), parse))
    ensures p.warranty.Num? <==> Field(e, "warranty").Num?
    ensures p.warranty.Num? ==> p.warranty == Field(e, "warranty")
    ensures !p.warranty.Num? ==> p.warranty == Null
  {
    SavePayload(
      id := Field(e, "id"),
      productName := Field(e, "productName"),
      brand := Field(e, "brand"),
      barcode := OrElse(Field(e, "barcode"), Null),
      images := OrElse(Field(e, "images"), Arr([])),
      description := OrElse(Field(e, "description"), Str("")),
      itemWeight := MeasureValue(e, "itemWeight", parse),
      weightUnit := MeasureUnit(e, "itemWeight"),
      ingredients := ArrayOrEmpty(Field(e, "ingredients")),
      storage := StorageList(Field(e, "storage")),
      itemsPerPack := NumberOrNull(Field(e, "itemsPerPack"), parse),
      color := OrElse(Field(e, "color"), Null),
      material := OrElse(Field(e, "material"), Null),
      width := MeasureValue(e, "width", parse),
      widthUnit := MeasureUnit(e, "width"),
      height := MeasureValue(e, "height", parse),
      heightUnit := MeasureUnit(e, "height"),
      warranty := WarrantyOrNull(Field(e, "warranty")))
  }

  /**
   * The card never sends undefined for an enrichable field: each number,
   * including each Measure's value, is a number or null, each unit, barcode,
   * colour and material is null where the enrichment has none, the images
   * are truthy (an empty array at worst), and the ingredient and storage lists
   * are arrays. So every enrichable field of the payload passes the save
   * route's `!== undefined` tests.
   */
  lemma FlattenDefinesEnrichableFields(e: JsValue, parse: NumberParser)
    requires !Nullish(e)
    ensures var p := Flatten(e, parse);
      && (p.itemWeight.Null? || p.itemWeight.Num?) && (p.width.Null? || p.width.Num?)
      && (p.height.Null? || p.height.Num?) && (p.itemsPerPack.Null? || p.itemsPerPack.Num?)
      && (p.warranty.Null? || p.warranty.Num?)
      && !p.weightUnit.Undefined? && !p.widthUnit.Undefined? && !p.heightUnit.Undefined?
      && !p.barcode.Undefined? && !p.description.Undefined? && !p.color.Undefined? && !p.material.Undefined?
      && Truthy(p.images) && p.ingredients.Arr? && p.storage.Arr?
  {
  }

  /**
   * The Measures are flattened independently: replacing the field `m` of an
   * enrichment object by `v` leaves the value and unit entries of every
   * other Measure as they were, and the entries of Measure `m` itself are
   * then decided by `v` alone.
   */
  lemma {:induction false} FlattenMeasuresIndependent(e: JsValue, m: string, v: JsValue, parse: NumberParser)
    requires e.Obj?
    ensures var p, p' := Flatten(e, parse), Flatten(Obj(e.fields[m := v]), parse);
      && (m != "itemWeight" ==> p'.itemWeight == p.itemWeight && p'.weightUnit == p.weightUnit)
      && (m != "width" ==> p'.width == p.width && p'.widthUnit == p.widthUnit)
      && (m != "height" ==> p'.height == p.height && p'.heightUnit == p.heightUnit)
      && (m == "itemWeight" ==>
            p'.itemWeight == NumberOrNull(OptionalMember(v, "value"), parse) && p'.weightUnit == Coalesce(OptionalMember(v, "unit"), Null))
      && (m == "width" ==>
            p'.width == NumberOrNull(OptionalMember(v, "value"), parse) && p'.widthUnit == Coalesce(OptionalMember(v, "unit"), Null))
      && (m == "height" ==>
            p'.height == NumberOrNull(OptionalMember(v, "value"), parse) && p'.heightUnit == Coalesce(OptionalMember(v, "unit"), Null))
  {
    FieldAfterUpdate(e, m, v, "itemWeight");
    FieldAfterUpdate(e, m, v, "width");
    FieldAfterUpdate(e, m, v, "height");
  }

  /** Replacing field `m` of an object changes what `k` reads only when `k` is `m`. */
  lemma FieldAfterUpdate(e: JsValue, m: string, v: JsValue, k: string)
    requires e.Obj?
    ensures Field(Obj(e.fields[m := v]), k) == if k == m then v else Field(e, k)
  {
  }

  /**
   * `dataForSaveAPI`: the flattened enrichment as a JSON object, or None
   * where reading the fields of an undefined or null enrichment throws.
   */
  function DataForSave(e: JsValue, parse: NumberParser): (r: Option<JsValue>)
    ensures r.None? <==> Nullish(e)
    ensures r.Some? ==> !Nullish(r.value) && Reads(r.value, Flatten(e, parse))
  {
    if Nullish(e) then None
    else
      var p := Flatten(e, parse);
      PayloadReads(p);
      Some(Payload(p))
  }
}
