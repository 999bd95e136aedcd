/** Dynamically typed JSON values, for request bodies, spread-built records and
    the payloads that class-validator inspects. */
module Json {
  import opened Wrappers

  /** A JSON value. Numbers are integers in this model. */
  datatype Json =
    | JNull
    | JBool(b: bool)
    | JNum(n: int)
    | JStr(s: string)
    | JArr(items: seq<Json>)
    | JObj(fields: map<string, Json>)

  /** A JavaScript object built by spreads: a key that is absent is `undefined`. */
  type Obj = map<string, Json>

  /** JavaScript truthiness of a defined value. */
  predicate Truthy(j: Json) {
    match j
    case JNull => false
    case JBool(b) => b
    case JNum(n) => n != 0
    case JStr(s) => s != ""
    case JArr(_) => true
    case JObj(_) => true
  }

  /** `o[k]`, with None for `undefined`. */
  function Get(o: Obj, k: string): (r: Option<Json>)
    ensures r.Some? <==> k in o
    ensures r.Some? ==> r.value == o[k]
  {
    if k in o then Some(o[k]) else None
  }

  /** JavaScript's `o[k] || fallback`. */
  function OrElse(o: Obj, k: string, fallback: Json): (r: Json)
    ensures k in o && Truthy(o[k]) ==> r == o[k]
    ensures !(k in o && Truthy(o[k])) ==> r == fallback
  {
    if k in o && Truthy(o[k]) then o[k] else fallback
  }

  /** JavaScript's `o[k] === v` for a defined `v`. */
  predicate FieldIs(o: Obj, k: string, v: Json) {
    k in o && o[k] == v
  }

  /** JavaScript's `a === b` between two parsed values: primitives compare by value,
      while two arrays or objects are never the same reference. */
  predicate StrictEquals(a: Json, b: Json) {
    !a.JArr? && !a.JObj? && a == b
  }
}
