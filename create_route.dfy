/**
 * The create route (src/app/api/create-product/route.ts): it stores a new
 * row holding the request's identity fields and fixed defaults for every
 * enrichable field, and answers with the stored row. The store assigns the
 * id from its sequence, so the id is an input known to be unused; whether
 * the store can be reached is an input too.
 */
module CreateProductRoute {
  import opened Wrappers
  import opened JsValues
  import opened Http
  import opened ProductTypes
  import opened Columns
  import opened StoreColumns

  const CreateFailedMessage: string := "Failed to create product."

  /** What the route returns (the stored row as the store's client gives it back), and the store after it. */
  datatype CreateOutcome = CreateOutcome(response: Result<Row, Failure>, store: Store)

  /** The values the route writes into the four identity columns of the new row. */
  function IdentityEntries(data: JsValue): (r: (JsValue, JsValue, JsValue, JsValue))
    requires !Nullish(data)
  {
    (Field(data, "productName"), Field(data, "brand"),
     OrElse(Field(data, "barcode"), Null), OrElse(Field(data, "images"), Arr([])))
  }

  /**
   * The route for request body `body`, None when the body is not JSON. Every
   * failure (an unreadable body, a property read on a null body, a value the
   * store rejects, an unreachable store) is caught and answered with 500.
   */
  function CreateProduct(store: Store, body: Option<JsValue>, id: int, reachable: bool): (r: CreateOutcome)
    requires id !in store
    ensures r.response.Err? ==> r.store == store && r.response.error == Failure(500, Text(CreateFailedMessage))
    ensures r.response.Ok? ==> r.response.value.id == id && r.store == store[id := r.response.value]
  {
    var failed := CreateOutcome(Err(Failure(500, Text(CreateFailedMessage))), store);
    if body.None? || Nullish(body.value) || !reachable then failed
    else
      var (name, brand, barcode, images) := IdentityEntries(body.value);
      match (StringColumn(name), StringColumn(brand), NullableStringColumn(barcode), StringListColumn(images))
      case (Some(n), Some(b), Some(code), Some(urls)) =>
        var row := Row(
          id := id,
          productName := n,
          brand := b,
          barcode := code,
          images := urls,
          description := Some(""),
          itemWeight := None,
          weightUnit := None,
          ingredients := [],
          storage := [],
          itemsPerPack := None,
          color := Some(""),
          material := Some(""),
          width := None,
          widthUnit := None,
          height := None,
          heightUnit := None,
          warranty := None);
        CreateOutcome(Ok(row), store[id := row])
      case _ => failed
  }

  /** A request field the store accepts in a string-list column once `|| []` is applied. */
  predicate ImagesAcceptable(v: JsValue) {
    !Truthy(v) || (v.Arr? && forall i :: 0 <= i < |v.items| ==> v.items[i].Str?)
  }

  /**
   * With a readable body and a reachable store the route succeeds exactly
   * when the name and brand are strings, the barcode is a string or falsy
   * and the images are a list of strings or falsy.
   */
  lemma {:induction false} CreateAccepted(store: Store, data: JsValue, id: int)
    requires id !in store && !Nullish(data)
    ensures CreateProduct(store, Some(data), id, true).response.Ok? <==>
      && Field(data, "productName").Str? && Field(data, "brand").Str?
      && (!Truthy(Field(data, "barcode")) || Field(data, "barcode").Str?)
      && ImagesAcceptable(Field(data, "images"))
  {
    var images := Field(data, "images");
    if !Truthy(images) {
      assert OrElse(images, Arr([])) == Arr([]);
      assert StringListColumn(Arr([])).Some?;
    }
  }

  /**
   * A created row holds the request's name and brand; its barcode is the
   * request's when that is truthy and null otherwise (an empty string among
   * them); its images are the request's list when that is truthy and `[]`
   * otherwise.
   */
  lemma {:induction false} CreateCopiesIdentity(store: Store, data: JsValue, id: int, reachable: bool)
    requires id !in store && !Nullish(data)
    requires CreateProduct(store, Some(data), id, reachable).response.Ok?
    ensures var row := CreateProduct(store, Some(data), id, reachable).response.value;
      && Str(row.productName) == Field(data, "productName")
      && Str(row.brand) == Field(data, "brand")
      && (Truthy(Field(data, "barcode")) ==> StrOrNull(row.barcode) == Field(data, "barcode"))
      && (!Truthy(Field(data, "barcode")) ==> row.barcode == None)
      && (Truthy(Field(data, "images")) ==> StrArr(row.images) == Field(data, "images"))
      && (!Truthy(Field(data, "images")) ==> row.images == [])
  {
    var row := CreateProduct(store, Some(data), id, reachable).response.value;
    var images := Field(data, "images");
    if Truthy(images) {
      assert StrArr(row.images).items == images.items;
    } else {
      assert OrElse(images, Arr([])) == Arr([]);
    }
  }

  /** The empty-string barcode a form sends for no barcode is stored as null. */
  lemma EmptyBarcodeIsNull(store: Store, data: JsValue, id: int, reachable: bool)
    requires id !in store && data.Obj? && data.fields.Keys >= {"barcode"} && data.fields["barcode"] == Str("")
    requires CreateProduct(store, Some(data), id, reachable).response.Ok?
    ensures CreateProduct(store, Some(data), id, reachable).response.value.barcode == None
  {
    CreateCopiesIdentity(store, data, id, reachable);
  }

  /**
   * Whatever else the request contains, the enrichable fields of a created
   * row are the defaults: empty text for the description, colour and
   * material, no ingredients or storage, and null for every number and unit.
   */
  lemma CreatedDefaults(store: Store, body: Option<JsValue>, id: int, reachable: bool)
    requires id !in store
    requires CreateProduct(store, body, id, reachable).response.Ok?
    ensures var row := CreateProduct(store, body, id, reachable).response.value;
      && row.description == Some("") && row.color == Some("") && row.material == Some("")
      && row.ingredients == [] && row.storage == []
      && row.itemWeight == None && row.weightUnit == None && row.itemsPerPack == None
      && row.width == None && row.widthUnit == None && row.height == None && row.heightUnit == None
      && row.warranty == None
  {
  }

  /** Two requests that agree on the four identity fields create the same row. */
  lemma {:induction false} CreateIgnoresOtherFields(store: Store, data: JsValue, data': JsValue, id: int, reachable: bool)
    requires id !in store && !Nullish(data) && !Nullish(data')
    requires forall k :: k in {"productName", "brand", "barcode", "images"} ==> Field(data, k) == Field(data', k)
    ensures CreateProduct(store, Some(data), id, reachable) == CreateProduct(store, Some(data'), id, reachable)
  {
    assert IdentityEntries(data) == IdentityEntries(data') by {
      assert Field(data, "productName") == Field(data', "productName");
      assert Field(data, "brand") == Field(data', "brand");
      assert Field(data, "barcode") == Field(data', "barcode");
      assert Field(data, "images") == Field(data', "images");
    }
  }

  /**
   * A created row has every value/unit pair null, so it reads as a Product
   * with no Measures and is exactly the row that Product is stored as: the
   * raw row the route echoes and the listing's Product carry the same fields.
   */
  lemma {:induction false} CreatedRowHasNoMeasures(store: Store, body: Option<JsValue>, id: int, reachable: bool)
    requires id !in store
    requires CreateProduct(store, body, id, reachable).response.Ok?
    ensures var row := CreateProduct(store, body, id, reachable).response.value;
      && PairsConsistent(row)
      && RowToProduct(row).itemWeight == None && RowToProduct(row).width == None && RowToProduct(row).height == None
      && ProductToRow(RowToProduct(row)) == row
  {
    var row := CreateProduct(store, body, id, reachable).response.value;
    CreatedDefaults(store, body, id, reachable);
    RowProductRoundTrip(row);
  }
}
