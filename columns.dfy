/**
 * The store's row for a product and its reading as a Product. The store keeps
 * no compound Measure: each Measure is two independent nullable columns (a
 * value and a unit), and a row is read back by the same mapping in the
 * listing route (src/app/api/product/route.ts) and in the response of the
 * save route (src/app/api/save-product/route.ts).
 */
module Columns {
  import opened Wrappers
  import opened ProductTypes

  /** A product row as the store holds it. */
  datatype Row = Row(
    id: int,
    productName: string,
    brand: string,
    barcode: Option<string>,
    images: seq<string>,
    description: Option<string>,
    itemWeight: Option<real>,
    weightUnit: Option<string>,
    ingredients: seq<string>,
    storage: seq<string>,
    itemsPerPack: Option<real>,
    color: Option<string>,
    material: Option<string>,
    width: Option<real>,
    widthUnit: Option<string>,
    height: Option<real>,
    heightUnit: Option<string>,
    warranty: Option<real>)

  /** The store: rows by their id, the table's primary key. */
  type Store = s: map<int, Row> | forall id :: id in s ==> s[id].id == id

  /** Reassembles a Measure from its two columns: present only when both are non-null. */
  function DecodeMeasure(value: Option<real>, unit: Option<string>): (m: Option<Measure>)
    ensures m.Some? <==> value.Some? && unit.Some?
    ensures m.Some? ==> m.value.value == value.value && m.value.unit == unit.value
  {
    if value.Some? && unit.Some? then Some(Measure(value.value, unit.value)) else None
  }

  /** Splits a Measure into its value column and its unit column. */
  function EncodeMeasure(m: Option<Measure>): (cols: (Option<real>, Option<string>))
    ensures m.None? <==> cols.0.None?
    ensures m.None? <==> cols.1.None?
  {
    match m
    case None => (None, None)
    case Some(x) => (Some(x.value), Some(x.unit))
  }

  /** Splitting a Measure (or its absence) into columns and reading them back gives it back. */
  lemma DecodeEncodeMeasure(m: Option<Measure>)
    ensures DecodeMeasure(EncodeMeasure(m).0, EncodeMeasure(m).1) == m
  {
  }

  /**
   * A half-populated pair decodes to no Measure at all, and a pair of columns
   * is what some Measure encodes to exactly when both or neither are null.
   */
  lemma HalfPopulatedPair(value: Option<real>, unit: Option<string>)
    ensures value.None? != unit.None? ==> DecodeMeasure(value, unit) == None
    ensures EncodeMeasure(DecodeMeasure(value, unit)) == (value, unit) <==> value.None? == unit.None?
  {
  }

  /** The three value/unit pairs of a row are each either both null or both non-null. */
  predicate PairsConsistent(row: Row) {
    && row.itemWeight.None? == row.weightUnit.None?
    && row.width.None? == row.widthUnit.None?
    && row.height.None? == row.heightUnit.None?
  }

  /**
   * A row as a Product: every column is copied and each Measure is
   * reassembled from its pair of columns.
   */
  function RowToProduct(row: Row): (p: Product)
    ensures p.id == row.id && p.productName == row.productName && p.brand == row.brand
    ensures p.images == Some(row.images) && p.barcode == row.barcode
    ensures p.description == row.description && p.ingredients == row.ingredients
    ensures p.storage == row.storage && p.itemsPerPack == row.itemsPerPack
    ensures p.color == row.color && p.material == row.material && p.warranty == row.warranty
    ensures p.itemWeight.Some? <==> row.itemWeight.Some? && row.weightUnit.Some?
    ensures p.width.Some? <==> row.width.Some? && row.widthUnit.Some?
    ensures p.height.Some? <==> row.height.Some? && row.heightUnit.Some?
    ensures p.itemWeight.Some? ==> p.itemWeight.value == Measure(row.itemWeight.value, row.weightUnit.value)
    ensures p.width.Some? ==> p.width.value == Measure(row.width.value, row.widthUnit.value)
    ensures p.height.Some? ==> p.height.value == Measure(row.height.value, row.heightUnit.value)
  {
    Product(
      id := row.id,
      productName := row.productName,
      brand := row.brand,
      images := Some(row.images),
      barcode := row.barcode,
      itemWeight := DecodeMeasure(row.itemWeight, row.weightUnit),
      ingredients := row.ingredients,
      description := row.description,
      storage := row.storage,
      itemsPerPack := row.itemsPerPack,
      color := row.color,
      material := row.material,
      width := DecodeMeasure(row.width, row.widthUnit),
      height := DecodeMeasure(row.height, row.heightUnit),
      warranty := row.warranty)
  }

  /** The row that stores `p`: each Measure split into its columns, absent images as `[]`. */
  function ProductToRow(p: Product): (row: Row)
    ensures PairsConsistent(row)
  {
    var (w, wu) := EncodeMeasure(p.itemWeight);
    var (x, xu) := EncodeMeasure(p.width);
    var (h, hu) := EncodeMeasure(p.height);
    Row(p.id, p.productName, p.brand, p.barcode,
        match p.images case Some(imgs) => imgs case None => [],
        p.description, w, wu, p.ingredients, p.storage, p.itemsPerPack, p.color, p.material,
        x, xu, h, hu, p.warranty)
  }

  /** Storing a product with images and reading its row back gives the product back. */
  lemma ProductRowRoundTrip(p: Product)
    requires p.images.Some?
    ensures RowToProduct(ProductToRow(p)) == p
  {
    DecodeEncodeMeasure(p.itemWeight);
    DecodeEncodeMeasure(p.width);
    DecodeEncodeMeasure(p.height);
  }

  /**
   * Reading a row as a Product loses nothing exactly when no value/unit pair
   * of the row is half-populated.
   */
  lemma RowProductRoundTrip(row: Row)
    ensures ProductToRow(RowToProduct(row)) == row <==> PairsConsistent(row)
  {
    HalfPopulatedPair(row.itemWeight, row.weightUnit);
    HalfPopulatedPair(row.width, row.widthUnit);
    HalfPopulatedPair(row.height, row.heightUnit);
  }
}
