/**
 * The home page (src/app/page.tsx): the list of products, the search box
 * that filters it by name and brand, and the handler that sends the product
 * the upload form submits to the create route and adds the route's answer
 * to the list. The request body is the product as JSON.stringify writes it
 * and the route's JSON.parse reads it back; the store's sequence gives the
 * new id, and whether the store can be reached is an input.
 */
module HomePage {
  import opened Wrappers
  import opened Strings
  import opened Http
  import opened ProductTypes
  import opened Columns
  import opened JsValues
  import opened CreateProductRoute
  import opened UploadForm
  import opened ListProductsRoute

  /** The search predicate: the lower-cased `name + " " + brand` includes the lower-cased search term. */
  predicate Matches(p: Product, term: string) {
    Contains(Lower(p.productName + " " + p.brand), Lower(term))
  }

  /**
   * `products.filter(...)`: the products the search term matches, in their
   * order. A product is shown exactly when it is listed and the term matches it.
   */
  function Filter(ps: seq<Product>, term: string): (r: seq<Product>)
    ensures |r| <= |ps|
    ensures forall p :: p in r <==> p in ps && Matches(p, term)
  {
    if ps == [] then []
    else
      assert ps == [ps[0]] + ps[1..];
      if Matches(ps[0], term) then [ps[0]] + Filter(ps[1..], term)
      else Filter(ps[1..], term)
  }

  /** `a` is `b` with some elements left out, the others kept in order. */
  predicate IsSubsequence<T(==)>(a: seq<T>, b: seq<T>)
    decreases |b|
  {
    if b == [] then a == []
    else (a != [] && a[0] == b[0] && IsSubsequence(a[1..], b[1..])) || IsSubsequence(a, b[1..])
  }

  /** The shown products are an order-preserving subsequence of the list. */
  lemma {:induction false} FilterIsSubsequence(ps: seq<Product>, term: string)
    ensures IsSubsequence(Filter(ps, term), ps)
  {
    if ps != [] {
      FilterIsSubsequence(ps[1..], term);
      if Matches(ps[0], term) {
        assert Filter(ps, term)[1..] == Filter(ps[1..], term);
      }
    }
  }

  /**
   * The shown list keeps every copy of a matching product and no copy of
   * any other: each product occurs in it as often as in the list when it
   * matches, and not at all otherwise.
   */
  lemma {:induction false} FilterKeepsMultiplicity(ps: seq<Product>, term: string, p: Product)
    ensures multiset(Filter(ps, term))[p] == if Matches(p, term) then multiset(ps)[p] else 0
  {
    if ps != [] {
      FilterKeepsMultiplicity(ps[1..], term, p);
      assert ps == [ps[0]] + ps[1..];
      assert multiset(ps) == multiset([ps[0]]) + multiset(ps[1..]);
      if Matches(ps[0], term) {
        assert multiset(Filter(ps, term)) == multiset([ps[0]]) + multiset(Filter(ps[1..], term));
      }
    }
  }

  /** An empty search term shows every product. */
  lemma {:induction false} FilterEmptyTerm(ps: seq<Product>)
    ensures Filter(ps, "") == ps
  {
    if ps != [] {
      ContainsEmpty(Lower(ps[0].productName + " " + ps[0].brand));
      FilterEmptyTerm(ps[1..]);
    }
  }

  /** Search terms that lower-case alike show the same products; in particular the case of the term does not matter. */
  lemma {:induction false} FilterIgnoresCase(ps: seq<Product>, term: string, term': string)
    requires Lower(term) == Lower(term')
    ensures Filter(ps, term) == Filter(ps, term')
  {
    if ps != [] {
      FilterIgnoresCase(ps[1..], term, term');
    }
  }

  /** Upper-casing the search term changes nothing. */
  lemma FilterUpperCaseTerm(ps: seq<Product>, term: string)
    ensures Filter(ps, Upper(term)) == Filter(ps, term)
  {
    LowerForgetsCase(term);
    FilterIgnoresCase(ps, Upper(term), term);
  }

  /** Filtering the shown products again with the same term shows them all. */
  lemma {:induction false} FilterIdempotent(ps: seq<Product>, term: string)
    ensures Filter(Filter(ps, term), term) == Filter(ps, term)
  {
    if ps != [] {
      FilterIdempotent(ps[1..], term);
      if Matches(ps[0], term) {
        assert ([ps[0]] + Filter(ps[1..], term))[1..] == Filter(ps[1..], term);
      }
    }
  }

  /** A product added at the head of the list is shown at the head exactly when the term matches it. */
  lemma FilterAfterPrepend(p: Product, ps: seq<Product>, term: string)
    ensures Filter([p] + ps, term) == (if Matches(p, term) then [p] else []) + Filter(ps, term)
  {
    assert ([p] + ps)[1..] == ps;
  }

  /** A Measure as JSON: `{ value, unit }`, or null. */
  function MeasureJson(m: Option<Measure>): (v: JsValue)
    ensures m.None? <==> v == Null
  {
    match m
    case None => Null
    case Some(x) => Obj(map["value" := Num(x.value), "unit" := Str(x.unit)])
  }

  /** An optional list of strings as JSON: the array, or null. */
  function StrArrOrNull(xs: Option<seq<string>>): (v: JsValue)
    ensures xs.None? <==> v == Null
    ensures xs.Some? ==> v == StrArr(xs.value)
  {
    match xs
    case None => Null
    case Some(l) => StrArr(l)
  }

  /** The fields of a new product that the create route reads. */
  function IdentityJson(c: ProductCreate): map<string, JsValue> {
    map["productName" := Str(c.productName), "brand" := Str(c.brand),
        "barcode" := StrOrNull(c.barcode), "images" := StrArrOrNull(c.images)]
  }

  /** The enrichable fields of a new product, which the create route ignores. */
  function EnrichableJson(c: ProductCreate): map<string, JsValue> {
    map["itemWeight" := MeasureJson(c.itemWeight), "ingredients" := StrArr(c.ingredients),
        "description" := StrOrNull(c.description), "storage" := StrArr(c.storage),
        "itemsPerPack" := NumOrNull(c.itemsPerPack), "color" := StrOrNull(c.color),
        "material" := StrOrNull(c.material), "width" := MeasureJson(c.width),
        "height" := MeasureJson(c.height), "warranty" := NumOrNull(c.warranty)]
  }

  /**
   * `JSON.stringify(newProductData)` as the create route reads it back: an
   * object whose identity fields are the product's, a missing barcode or
   * image list written as null.
   */
  function CreateRequestBody(c: ProductCreate): (body: JsValue)
    ensures body.Obj? && IdentityJson(c).Keys <= body.fields.Keys
  {
    Obj(EnrichableJson(c) + IdentityJson(c))
  }

  /** The create route reads the product's name and brand back from the body. */
  lemma RequestBodyNames(c: ProductCreate)
    ensures Field(CreateRequestBody(c), "productName") == Str(c.productName)
    ensures Field(CreateRequestBody(c), "brand") == Str(c.brand)
  {
  }

  /** The create route reads the product's barcode and images back from the body, null where absent. */
  lemma RequestBodyImages(c: ProductCreate)
    ensures Field(CreateRequestBody(c), "barcode") == StrOrNull(c.barcode)
    ensures Field(CreateRequestBody(c), "images") == StrArrOrNull(c.images)
  {
  }

  /**
   * With the store reachable, the create route accepts every product the
   * page sends. It stores the name and brand, the barcode with a blank one
   * as null, and the image list, an absent one as empty.
   */
  lemma {:induction false} SentProductCreated(store: Store, c: ProductCreate, id: int)
    requires id !in store
    ensures var r := CreateProduct(store, Some(CreateRequestBody(c)), id, true);
      && r.response.Ok?
      && r.response.value.productName == c.productName && r.response.value.brand == c.brand
      && r.response.value.barcode == (if c.barcode == Some("") then None else c.barcode)
      && r.response.value.images == (if c.images.Some? then c.images.value else [])
  {
    var body := CreateRequestBody(c);
    RequestBodyNames(c);
    RequestBodyImages(c);
    CreateAccepted(store, body, id);
    CreateCopiesIdentity(store, body, id, true);
    var row := CreateProduct(store, Some(body), id, true).response.value;
    if c.images.Some? {
      var xs := c.images.value;
      assert StrArr(row.images) == StrArr(xs);
      assert forall i :: 0 <= i < |xs| ==> Str(row.images[i]) == StrArr(row.images).items[i];
    }
  }

  /**
   * A product submitted from the upload form and created is listed as the
   * submitted product with its new id, except that a blank barcode is null.
   */
  lemma {:induction false} SubmittedProductListed(
    store: Store, productName: string, brand: string, images: string, barcode: string, id: int)
    requires id !in store
    ensures var p := NewProduct(productName, brand, images, barcode);
      var r := CreateProduct(store, Some(CreateRequestBody(p)), id, true);
      && r.response.Ok?
      && RowToProduct(r.response.value) == WithId(p.(barcode := if barcode == "" then None else Some(barcode)), id)
  {
    var p := NewProduct(productName, brand, images, barcode);
    var body := Some(CreateRequestBody(p));
    SentProductCreated(store, p, id);
    CreatedDefaults(store, body, id, true);
    CreatedRowHasNoMeasures(store, body, id, true);
  }

  /** A product named "Widget" of brand "Acme". */
  const Widget: Product :=
    Product(1, "Widget", "Acme", None, None, None, [], None, [], None, None, None, None, None, None)

  /**
   * The term is matched against name and brand joined by a space, so a
   * match may span the two: "widget acme" finds the Widget of Acme, while
   * "acme widget", the same words in the other order, does not.
   */
  lemma SearchSpansNameAndBrand()
    ensures Matches(Widget, "widget acme")
    ensures !Matches(Widget, "acme widget")
  {
    var s := Lower(Widget.productName + " " + Widget.brand);
    assert s == "widget acme" by {
      assert Widget.productName + " " + Widget.brand == "Widget Acme";
    }
    assert Lower("widget acme") == "widget acme";
    assert OccursAt(s, 0, "widget acme");
    assert Lower("acme widget") == "acme widget";
    assert |s| == |"acme widget"|;
    assert !OccursAt(s, 0, "acme widget") by {
      assert s[0] != "acme widget"[0];
    }
  }

  /** The page's state. */
  class Home {
    var products: seq<Product>
    var loading: bool
    var error: Option<string>
    var formVisible: bool
    var searchTerm: string

    /** The state before the first fetch: no products, loading, no error, the form hidden, an empty search. */
    constructor ()
      ensures products == [] && loading && error == None && !formVisible && searchTerm == ""
    {
      products := [];
      loading := true;
      error := None;
      formVisible := false;
      searchTerm := "";
    }

    /** The products the page shows: those of the list the search term matches, in the list's order. */
    function FilteredProducts(): (shown: seq<Product>)
      reads this
      ensures forall p :: p in shown <==> p in products && Matches(p, searchTerm)
      ensures IsSubsequence(shown, products)
    {
      FilterIsSubsequence(products, searchTerm);
      Filter(products, searchTerm)
    }

    /**
     * `fetchAllProducts` once the listing route has answered for the rows
     * `fetched` (None when the store's query throws): the listed products
     * replace the list, or the route's error message is shown and the list
     * kept. Loading is over either way.
     */
    method FetchAllProducts(fetched: Option<seq<Row>>)
      modifies this
      ensures var r := GetProducts(fetched);
        && (r.Ok? ==> products == r.value && error == None)
        && (r.Err? ==> products == old(products) && error == Some(RetrieveFailedMessage))
      ensures !loading && formVisible == old(formVisible) && searchTerm == old(searchTerm)
    {
      loading := true;
      error := None;
      var res := GetProducts(fetched);
      if res.Ok? {
        products := res.value;
      } else {
        // The route's error body names the failure; it is never empty.
        error := Some(RetrieveFailedMessage);
      }
      loading := false;
    }

    /** The upload button: it shows the form when hidden and hides it when shown. */
    method ToggleForm()
      modifies this
      ensures formVisible == !old(formVisible)
      ensures products == old(products) && error == old(error) && loading == old(loading) && searchTerm == old(searchTerm)
    {
      formVisible := !formVisible;
    }

    /** The form's cancel action hides it. */
    method CancelForm()
      modifies this
      ensures !formVisible
      ensures products == old(products) && error == old(error) && loading == old(loading) && searchTerm == old(searchTerm)
    {
      formVisible := false;
    }

    /** Typing into the search box. */
    method SetSearchTerm(term: string)
      modifies this
      ensures searchTerm == term
      ensures products == old(products) && error == old(error) && loading == old(loading) && formVisible == old(formVisible)
    {
      searchTerm := term;
    }

    /**
     * `handleAddProduct`: the product is sent to the create route (`id` is
     * the id the store's sequence gives next, `reachable` whether the store
     * answers, `statusText` the status text of an error response). A created
     * product is prepended and the form hidden; a failure sets the error
     * message and leaves the list as it was. A created row has no Measure
     * columns filled, so the raw row the route echoes is read as the Product
     * it stores (CreatedRowHasNoMeasures). The store after the call is returned.
     */
    method HandleAddProduct(newProductData: ProductCreate, store: Store, id: int, reachable: bool, statusText: string)
      returns (store': Store)
      requires id !in store
      modifies this
      ensures var r := CreateProduct(store, Some(CreateRequestBody(newProductData)), id, reachable);
        && store' == r.store
        && (r.response.Ok? ==>
              && products == [RowToProduct(r.response.value)] + old(products)
              && !formVisible && error == old(error))
        && (r.response.Err? ==>
              && products == old(products) && formVisible == old(formVisible)
              && error == Some("Failed to add product: " + statusText))
      ensures loading == old(loading) && searchTerm == old(searchTerm)
    {
      var res := CreateProduct(store, Some(CreateRequestBody(newProductData)), id, reachable);
      store' := res.store;
      if res.response.Err? {
        error := Some("Failed to add product: " + statusText);
        return;
      }
      var addedProduct := RowToProduct(res.response.value);
      products := [addedProduct] + products;
      formVisible := false;
    }
  }
}
