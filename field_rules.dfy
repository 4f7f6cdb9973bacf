/**
 * The coercions that both the product card (src/components/ProductCard.tsx)
 * and the save route (src/app/api/save-product/route.ts) apply to an
 * enrichment field; each is written the same way at both sites.
 */
module FieldRules {
  import opened JsValues

  /** `v !== undefined ? Number(v) : null`. */
  function NumberOrNull(v: JsValue, parse: NumberParser): (r: JsValue)
    ensures r.Null? <==> v.Undefined?
    ensures !v.Undefined? ==> r == Num(ToNumber(v, parse))
  {
    if v.Undefined? then Null else Num(ToNumber(v, parse))
  }

  /** `Array.isArray(v) ? v : []`. */
  function ArrayOrEmpty(v: JsValue): (r: JsValue)
    ensures r.Arr?
    ensures v.Arr? ==> r == v
    ensures !v.Arr? ==> r == Arr([])
  {
    if v.Arr? then v else Arr([])
  }

  /** `Array.isArray(v) ? v : v ? [v] : []`: the storage field as a list. */
  function StorageList(v: JsValue): (r: JsValue)
    ensures r.Arr?
    ensures v.Arr? ==> r == v
    ensures !v.Arr? && Truthy(v) ==> r == Arr([v])
    ensures !Truthy(v) ==> r == Arr([])
  {
    if v.Arr? then v else if Truthy(v) then Arr([v]) else Arr([])
  }

  /**
   * Normalising the storage field twice, as the card and then the save route
   * do, is the same as normalising it once; likewise for the ingredients.
   */
  lemma NormalisingTwiceIsOnce(v: JsValue)
    ensures StorageList(StorageList(v)) == StorageList(v)
    ensures ArrayOrEmpty(ArrayOrEmpty(v)) == ArrayOrEmpty(v)
  {
  }

  /**
   * A numeric field converted by the card and then by the save route keeps
   * its number, but the card's `null` for a missing field becomes `Number(null)`,
   * which is 0, at the route.
   */
  lemma NumberOrNullTwice(v: JsValue, parse: NumberParser)
    ensures v.Num? ==> NumberOrNull(NumberOrNull(v, parse), parse) == v
    ensures v.Undefined? ==> NumberOrNull(NumberOrNull(v, parse), parse) == Num(0.0)
  {
  }
}
