/** JSON values as the CMS stores them, with the JavaScript operations the
    hooks apply to them: truthiness, property lookup and `Object.assign`. */
module Json {
  import opened Wrappers

  datatype Json =
    | JNull
    | JBool(b: bool)
    | JNum(n: real)
    | JStr(s: string)
    | JArr(items: seq<Json>)
    | JObj(fields: map<string, Json>)

  /** A plain JavaScript object: property name to value. */
  type Object = map<string, Json>

  /** JavaScript truthiness of a JSON value (`NaN` is not a JSON value). */
  predicate Truthy(j: Json) {
    match j
    case JNull => false
    case JBool(b) => b
    case JNum(n) => n != 0.0
    case JStr(s) => s != ""
    case JArr(_) => true
    case JObj(_) => true
  }

  /** Truthiness of an optional string property: `undefined` and `''` are falsy. */
  predicate StrTruthy(s: Option<string>) {
    s.Some? && s.value != ""
  }

  /** `o[k]`, with `undefined` for a missing property. */
  function Get(o: Object, k: string): (r: Option<Json>)
    ensures r.Some? <==> k in o
    ensures r.Some? ==> r.value == o[k]
  {
    if k in o then Some(o[k]) else None
  }

  /** `v?.k` on a JSON value: only objects have properties. */
  function Prop(v: Json, k: string): (r: Option<Json>)
    ensures r.Some? <==> v.JObj? && k in v.fields
  {
    if v.JObj? then Get(v.fields, k) else None
  }

  /** `a || b` on an optional property with a JSON fallback. */
  function OrElse(a: Option<Json>, b: Json): (r: Json)
    ensures a.Some? && Truthy(a.value) ==> r == a.value
    ensures !(a.Some? && Truthy(a.value)) ==> r == b
  {
    if a.Some? && Truthy(a.value) then a.value else b
  }

  /** `Object.assign({}, target, source)`: every key of either, and on a key
      both have, the later source wins. */
  function Assign(target: Object, source: Object): (r: Object)
    ensures r.Keys == target.Keys + source.Keys
    ensures forall k :: k in source ==> r[k] == source[k]
    ensures forall k :: k in target && k !in source ==> r[k] == target[k]
  {
    target + source
  }

  /** A `null`/`undefined` source contributes nothing to `Object.assign`. */
  function OrEmpty(o: Option<Object>): Object {
    o.GetOr(map[])
  }
}
