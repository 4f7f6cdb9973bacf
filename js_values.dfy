/**
 * The JavaScript values that cross the app's JSON boundaries (request bodies,
 * the model's completion decoded by JSON.parse), and the few JavaScript
 * operators the routes and components apply to them: truthiness, `??`, `||`,
 * property access with and without optional chaining, `Array.isArray` and
 * `Number(...)`.
 */
module JsValues {
  import opened Wrappers

  /**
   * A JavaScript value as JSON can carry it, plus `undefined` for a key that
   * is absent. Numbers are reals: NaN and the infinities are not modelled.
   */
  datatype JsValue =
    | Undefined
    | Null
    | Bool(b: bool)
    | Num(n: real)
    | Str(s: string)
    | Arr(items: seq<JsValue>)
    | Obj(fields: map<string, JsValue>)

  /** JavaScript truthiness: `undefined`, `null`, `false`, `0` and `""` are falsy. */
  predicate Truthy(v: JsValue) {
    match v
    case Undefined => false
    case Null => false
    case Bool(b) => b
    case Num(n) => n != 0.0
    case Str(s) => s != ""
    case Arr(_) => true
    case Obj(_) => true
  }

  /** `v == null` in JavaScript: `undefined` or `null`. */
  predicate Nullish(v: JsValue) {
    v.Undefined? || v.Null?
  }

  /** `v ?? d`: the default replaces only `undefined` and `null`. */
  function Coalesce(v: JsValue, d: JsValue): (r: JsValue)
    ensures Nullish(v) ==> r == d
    ensures !Nullish(v) ==> r == v
  {
    if Nullish(v) then d else v
  }

  /** `v || d`: the default replaces every falsy value. */
  function OrElse(v: JsValue, d: JsValue): (r: JsValue)
    ensures !Truthy(v) ==> r == d
    ensures Truthy(v) ==> r == v
  {
    if Truthy(v) then v else d
  }

  /**
   * `v.key`. Reading a property of `undefined` or `null` throws a TypeError
   * (None). The keys this app reads are not properties of booleans, numbers,
   * strings or arrays, so on those the read gives `undefined`.
   */
  function Member(v: JsValue, key: string): (r: Option<JsValue>)
    ensures r.None? <==> Nullish(v)
    ensures v.Obj? && key in v.fields ==> r == Some(v.fields[key])
    ensures v.Obj? && key !in v.fields ==> r == Some(Undefined)
  {
    match v
    case Undefined => None
    case Null => None
    case Obj(fields) => Some(if key in fields then fields[key] else Undefined)
    case _ => Some(Undefined)
  }

  /** `e.key` on a value already known not to be undefined or null. */
  function Field(e: JsValue, key: string): JsValue
    requires !Nullish(e)
  {
    Member(e, key).value
  }

  /** `v?.key`: like `v.key`, but `undefined` instead of a TypeError. */
  function OptionalMember(v: JsValue, key: string): (r: JsValue)
    ensures Nullish(v) ==> r == Undefined
    ensures !Nullish(v) ==> Some(r) == Member(v, key)
  {
    if Nullish(v) then Undefined else Member(v, key).value
  }

  /**
   * How `Number(...)` converts a string, an array or an object: through the
   * JavaScript string-to-number grammar, which this model leaves abstract.
   */
  type NumberParser = JsValue -> real

  /**
   * `Number(v)`. Null, booleans and numbers convert as JavaScript defines;
   * the rest goes through `parse`. No call site applies it to `undefined`.
   */
  function ToNumber(v: JsValue, parse: NumberParser): (r: real)
    requires !v.Undefined?
    ensures v.Num? ==> r == v.n
    ensures v.Null? ==> r == 0.0
    ensures v.Bool? ==> r == (if v.b then 1.0 else 0.0)
  {
    match v
    case Null => 0.0
    case Bool(b) => if b then 1.0 else 0.0
    case Num(n) => n
    case _ => parse(v)
  }

  /** A JSON array of strings, as the app stores image URLs, ingredients and storage values. */
  function StrArr(xs: seq<string>): (r: JsValue)
    ensures r.Arr? && |r.items| == |xs|
    ensures forall i :: 0 <= i < |xs| ==> r.items[i] == Str(xs[i])
  {
    Arr(seq(|xs|, i requires 0 <= i < |xs| => Str(xs[i])))
  }

  /** A nullable string field as a JSON value. */
  function StrOrNull(x: Option<string>): (r: JsValue)
    ensures x.None? <==> r == Null
    ensures x.Some? ==> r == Str(x.value)
  {
    match x
    case None => Null
    case Some(s) => Str(s)
  }

  /** A nullable numeric field as a JSON value. */
  function NumOrNull(x: Option<real>): (r: JsValue)
    ensures x.None? <==> r == Null
    ensures x.Some? ==> r == Num(x.value)
  {
    match x
    case None => Null
    case Some(n) => Num(n)
  }
}
