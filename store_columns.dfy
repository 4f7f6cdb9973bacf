/**
 * Writing JSON values into the store's typed columns. The store's client
 * rejects a record whose value does not have the column's type (a number
 * for a string column, a non-string element in a string list, null for a
 * required column); the routes then answer 500. Only the types are
 * modelled here, not the client's error text.
 */
module StoreColumns {
  import opened Wrappers
  import opened JsValues
  import opened Columns

  /** A required string column. */
  function StringColumn(v: JsValue): (r: Option<string>)
    ensures r.Some? <==> v.Str?
    ensures r.Some? ==> r.value == v.s
  {
    if v.Str? then Some(v.s) else None
  }

  /** A nullable string column. */
  function NullableStringColumn(v: JsValue): (r: Option<Option<string>>)
    ensures r.Some? <==> v.Null? || v.Str?
    ensures r == Some(None) <==> v.Null?
    ensures v.Str? ==> r == Some(Some(v.s))
  {
    match v
    case Null => Some(None)
    case Str(s) => Some(Some(s))
    case _ => None
  }

  /** A nullable numeric column. */
  function NullableNumberColumn(v: JsValue): (r: Option<Option<real>>)
    ensures r.Some? <==> v.Null? || v.Num?
    ensures r == Some(None) <==> v.Null?
    ensures v.Num? ==> r == Some(Some(v.n))
  {
    match v
    case Null => Some(None)
    case Num(n) => Some(Some(n))
    case _ => None
  }

  /** A string-list column: an array whose elements are all strings. */
  function StringListColumn(v: JsValue): (r: Option<seq<string>>)
    ensures r.Some? <==> v.Arr? && forall i :: 0 <= i < |v.items| ==> v.items[i].Str?
    ensures r.Some? ==> |r.value| == |v.items| && forall i :: 0 <= i < |r.value| ==> v.items[i] == Str(r.value[i])
  {
    if v.Arr? && forall i :: 0 <= i < |v.items| ==> v.items[i].Str? then
      Some(seq(|v.items|, i requires 0 <= i < |v.items| && v.items[i].Str? => v.items[i].s))
    else
      None
  }

  /** Each column accepts the JSON value of what it stores and reads it back unchanged. */
  lemma ColumnsReadBackTheirValues(s: string, x: Option<string>, n: Option<real>, xs: seq<string>)
    ensures StringColumn(Str(s)) == Some(s)
    ensures NullableStringColumn(StrOrNull(x)) == Some(x)
    ensures NullableNumberColumn(NumOrNull(n)) == Some(n)
    ensures StringListColumn(StrArr(xs)) == Some(xs)
  {
    assert StringListColumn(StrArr(xs)).value == xs;
  }

  /** The columns of a product row that an update can write; the id is not one of them. */
  datatype ColumnName =
    | ProductName | Brand | Barcode | Images | Description | ItemWeight | WeightUnit
    | Ingredients | Storage | ItemsPerPack | Color | Material | Width | WidthUnit
    | Height | HeightUnit | Warranty

  /**
   * The data of an update, as the store's client takes it: for each column,
   * the JSON value to write there, or None where the data has no such key
   * and the column keeps its value.
   */
  datatype RowUpdate = RowUpdate(
    productName: Option<JsValue>,
    brand: Option<JsValue>,
    barcode: Option<JsValue>,
    images: Option<JsValue>,
    description: Option<JsValue>,
    itemWeight: Option<JsValue>,
    weightUnit: Option<JsValue>,
    ingredients: Option<JsValue>,
    storage: Option<JsValue>,
    itemsPerPack: Option<JsValue>,
    color: Option<JsValue>,
    material: Option<JsValue>,
    width: Option<JsValue>,
    widthUnit: Option<JsValue>,
    height: Option<JsValue>,
    heightUnit: Option<JsValue>,
    warranty: Option<JsValue>)

  /** The entry of the update for column `c`. */
  function Entry(u: RowUpdate, c: ColumnName): Option<JsValue> {
    match c
    case ProductName => u.productName
    case Brand => u.brand
    case Barcode => u.barcode
    case Images => u.images
    case Description => u.description
    case ItemWeight => u.itemWeight
    case WeightUnit => u.weightUnit
    case Ingredients => u.ingredients
    case Storage => u.storage
    case ItemsPerPack => u.itemsPerPack
    case Color => u.color
    case Material => u.material
    case Width => u.width
    case WidthUnit => u.widthUnit
    case Height => u.height
    case HeightUnit => u.heightUnit
    case Warranty => u.warranty
  }

  /** A string column after writing `entry`. */
  function StringAt(entry: Option<JsValue>, current: string): string
    requires entry.Some? ==> StringColumn(entry.value).Some?
  {
    if entry.Some? then StringColumn(entry.value).value else current
  }

  /** A nullable string column after writing `entry`. */
  function NullableStringAt(entry: Option<JsValue>, current: Option<string>): Option<string>
    requires entry.Some? ==> NullableStringColumn(entry.value).Some?
  {
    if entry.Some? then NullableStringColumn(entry.value).value else current
  }

  /** A nullable numeric column after writing `entry`. */
  function NullableNumberAt(entry: Option<JsValue>, current: Option<real>): Option<real>
    requires entry.Some? ==> NullableNumberColumn(entry.value).Some?
  {
    if entry.Some? then NullableNumberColumn(entry.value).value else current
  }

  /** A string-list column after writing `entry`. */
  function StringListAt(entry: Option<JsValue>, current: seq<string>): seq<string>
    requires entry.Some? ==> StringListColumn(entry.value).Some?
  {
    if entry.Some? then StringListColumn(entry.value).value else current
  }

  /** The value `v` has the type of column `c`. */
  predicate Accepts(c: ColumnName, v: JsValue) {
    match c
    case ProductName | Brand => StringColumn(v).Some?
    case Barcode | Description | WeightUnit | Color | Material | WidthUnit | HeightUnit =>
      NullableStringColumn(v).Some?
    case Images | Ingredients | Storage => StringListColumn(v).Some?
    case ItemWeight | ItemsPerPack | Width | Height | Warranty => NullableNumberColumn(v).Some?
  }

  /** The update's entry for column `c`, if any, has the column's type. */
  predicate EntryAccepted(u: RowUpdate, c: ColumnName) {
    Entry(u, c).Some? ==> Accepts(c, Entry(u, c).value)
  }

  /** Entries for the four kinds of column: absent, or of the column's type. */
  predicate StringEntry(entry: Option<JsValue>) {
    entry.Some? ==> StringColumn(entry.value).Some?
  }

  predicate NullableStringEntry(entry: Option<JsValue>) {
    entry.Some? ==> NullableStringColumn(entry.value).Some?
  }

  predicate NullableNumberEntry(entry: Option<JsValue>) {
    entry.Some? ==> NullableNumberColumn(entry.value).Some?
  }

  predicate StringListEntry(entry: Option<JsValue>) {
    entry.Some? ==> StringListColumn(entry.value).Some?
  }

  /** Every entry of the update has the type of its column. */
  predicate Writable(u: RowUpdate) {
    && StringEntry(u.productName) && StringEntry(u.brand) && NullableStringEntry(u.barcode)
    && StringListEntry(u.images) && NullableStringEntry(u.description) && NullableNumberEntry(u.itemWeight)
    && NullableStringEntry(u.weightUnit) && StringListEntry(u.ingredients) && StringListEntry(u.storage)
    && NullableNumberEntry(u.itemsPerPack) && NullableStringEntry(u.color) && NullableStringEntry(u.material)
    && NullableNumberEntry(u.width) && NullableStringEntry(u.widthUnit) && NullableNumberEntry(u.height)
    && NullableStringEntry(u.heightUnit) && NullableNumberEntry(u.warranty)
  }

  /** In a writable update every entry is accepted by its column. */
  lemma WritableAcceptsEveryEntry(u: RowUpdate, c: ColumnName)
    requires Writable(u)
    ensures EntryAccepted(u, c)
  {
  }

  /**
   * The store's update of `row` with `u`: the whole update is rejected
   * when any entry does not have its column's type; otherwise every written
   * column takes its new value and the others, the id among them, keep theirs.
   */
  function WriteRow(row: Row, u: RowUpdate): (r: Option<Row>)
    ensures r.Some? <==> Writable(u)
    ensures r.Some? ==> r.value.id == row.id
  {
    if !Writable(u) then None
    else
      Some(Row(
        row.id,
        StringAt(u.productName, row.productName),
        StringAt(u.brand, row.brand),
        NullableStringAt(u.barcode, row.barcode),
        StringListAt(u.images, row.images),
        NullableStringAt(u.description, row.description),
        NullableNumberAt(u.itemWeight, row.itemWeight),
        NullableStringAt(u.weightUnit, row.weightUnit),
        StringListAt(u.ingredients, row.ingredients),
        StringListAt(u.storage, row.storage),
        NullableNumberAt(u.itemsPerPack, row.itemsPerPack),
        NullableStringAt(u.color, row.color),
        NullableStringAt(u.material, row.material),
        NullableNumberAt(u.width, row.width),
        NullableStringAt(u.widthUnit, row.widthUnit),
        NullableNumberAt(u.height, row.height),
        NullableStringAt(u.heightUnit, row.heightUnit),
        NullableNumberAt(u.warranty, row.warranty)))
  }

  /** Column `c` of `row` as the JSON value the store's client returns for it. */
  function ColumnValue(row: Row, c: ColumnName): JsValue {
    match c
    case ProductName => Str(row.productName)
    case Brand => Str(row.brand)
    case Barcode => StrOrNull(row.barcode)
    case Images => StrArr(row.images)
    case Description => StrOrNull(row.description)
    case ItemWeight => NumOrNull(row.itemWeight)
    case WeightUnit => StrOrNull(row.weightUnit)
    case Ingredients => StrArr(row.ingredients)
    case Storage => StrArr(row.storage)
    case ItemsPerPack => NumOrNull(row.itemsPerPack)
    case Color => StrOrNull(row.color)
    case Material => StrOrNull(row.material)
    case Width => NumOrNull(row.width)
    case WidthUnit => StrOrNull(row.widthUnit)
    case Height => NumOrNull(row.height)
    case HeightUnit => StrOrNull(row.heightUnit)
    case Warranty => NumOrNull(row.warranty)
  }

  /** A value a column accepts is the value it then reads back. */
  lemma AcceptedReadsBack(c: ColumnName, v: JsValue)
    requires Accepts(c, v)
    ensures c in {ProductName, Brand} ==> Str(StringColumn(v).value) == v
    ensures c in {Barcode, Description, WeightUnit, Color, Material, WidthUnit, HeightUnit} ==>
      StrOrNull(NullableStringColumn(v).value) == v
    ensures c in {ItemWeight, ItemsPerPack, Width, Height, Warranty} ==> NumOrNull(NullableNumberColumn(v).value) == v
    ensures c in {Images, Ingredients, Storage} ==> StrArr(StringListColumn(v).value) == v
  {
    if c in {Images, Ingredients, Storage} {
      assert StrArr(StringListColumn(v).value).items == v.items;
    }
  }

  /**
   * After a successful update, every written column reads back as the
   * value written and every other column as it was.
   */
  lemma WriteRowReadsBack(row: Row, u: RowUpdate, c: ColumnName)
    requires Writable(u)
    ensures Entry(u, c).Some? ==> ColumnValue(WriteRow(row, u).value, c) == Entry(u, c).value
    ensures Entry(u, c).None? ==> ColumnValue(WriteRow(row, u).value, c) == ColumnValue(row, c)
  {
    if Entry(u, c).Some? {
      WritableAcceptsEveryEntry(u, c);
      AcceptedReadsBack(c, Entry(u, c).value);
    }
  }
}
