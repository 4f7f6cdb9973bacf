/**
 * The listing route (src/app/api/product/route.ts): every stored row read
 * back as a Product, each Measure reassembled from its two columns, or a
 * 500 response when the store cannot be read. The store's query is not
 * modelled: the rows it returns, or None when it throws, are an input.
 */
module ListProductsRoute {
  import opened Wrappers
  import opened JsValues
  import opened Http
  import opened ProductTypes
  import opened Columns
  import opened SaveProductRoute

  const RetrieveFailedMessage: string := "Failed to retrieve products."

  /**
   * `productsFromDb.map(...)`: the rows as Products, in the order the store
   * returned them. Each Product has its row's id and loses nothing of a row
   * whose Measure columns are filled in pairs.
   */
  function FormatProducts(rows: seq<Row>): (ps: seq<Product>)
    ensures |ps| == |rows|
    ensures forall i :: 0 <= i < |ps| ==> ps[i] == RowToProduct(rows[i])
    ensures forall i :: 0 <= i < |ps| ==> ps[i].id == rows[i].id
    ensures forall i :: 0 <= i < |ps| ==> (ProductToRow(ps[i]) == rows[i] <==> PairsConsistent(rows[i]))
  {
    var ps := seq(|rows|, i requires 0 <= i < |rows| => RowToProduct(rows[i]));
    assert forall i :: 0 <= i < |ps| ==> (ProductToRow(ps[i]) == rows[i] <==> PairsConsistent(rows[i])) by {
      forall i | 0 <= i < |ps|
        ensures ProductToRow(ps[i]) == rows[i] <==> PairsConsistent(rows[i])
      {
        RowProductRoundTrip(rows[i]);
      }
    }
    ps
  }

  /** The route's response to the rows fetched, or to a failed fetch. */
  function GetProducts(fetched: Option<seq<Row>>): (r: Result<seq<Product>, Failure>)
    ensures r.Err? <==> fetched.None?
    ensures r.Err? ==> r.error == Failure(500, Text(RetrieveFailedMessage))
    ensures r.Ok? ==> r.value == FormatProducts(fetched.value) && |r.value| == |fetched.value|
  {
    match fetched
    case None => Err(Failure(500, Text(RetrieveFailedMessage)))
    case Some(rows) => Ok(FormatProducts(rows))
  }

  /** Listing the products stored for a list of Products gives those Products back, when all have images. */
  lemma ListingStoredProducts(ps: seq<Product>)
    requires forall i :: 0 <= i < |ps| ==> ps[i].images.Some?
    ensures FormatProducts(seq(|ps|, i requires 0 <= i < |ps| => ProductToRow(ps[i]))) == ps
  {
    var rows := seq(|ps|, i requires 0 <= i < |ps| => ProductToRow(ps[i]));
    forall i | 0 <= i < |ps|
      ensures FormatProducts(rows)[i] == ps[i]
    {
      ProductRowRoundTrip(ps[i]);
    }
  }

  /**
   * After a successful save, listing the store shows the saved product
   * exactly as the save route answered with it.
   */
  lemma ListingShowsSavedProduct(store: Store, body: JsValue, parse: NumberParser, reachable: bool, rows: seq<Row>, i: int)
    requires SaveProduct(store, body, parse, reachable).response.Ok?
    requires 0 <= i < |rows|
    requires rows[i] == SaveProduct(store, body, parse, reachable).store[SaveProduct(store, body, parse, reachable).response.value.id]
    ensures FormatProducts(rows)[i] == SaveProduct(store, body, parse, reachable).response.value
  {
  }
}
