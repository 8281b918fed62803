/** Parsed JSON values as the request handlers and the quiz validator see
    them, with JavaScript's truthiness and property reads.  `null` and a
    missing property (`undefined`) are both `JNull`: every check in the core
    treats them alike.  Numbers are `real`; NaN and the infinities are not
    modelled. */
module JsValue {

  datatype Option<T> = None | Some(value: T)

  datatype Json =
    | JNull
    | JBool(b: bool)
    | JNum(n: real)
    | JStr(s: string)
    | JArr(elems: seq<Json>)
    | JObj(fields: map<string, Json>)

  /** `!!v`: `null`/`undefined`, `false`, `0` and `""` are falsy; arrays and
      objects are truthy even when empty. */
  predicate Truthy(v: Json)
  {
    match v
    case JNull => false
    case JBool(b) => b
    case JNum(n) => n != 0.0
    case JStr(s) => s != ""
    case JArr(_) => true
    case JObj(_) => true
  }

  /** `v.key`: the property of an object, `undefined` for anything else. */
  function Get(v: Json, key: string): (r: Json)
    ensures r != JNull ==> v.JObj? && key in v.fields && r == v.fields[key]
    ensures v.JObj? && key in v.fields ==> r == v.fields[key]
  {
    if v.JObj? && key in v.fields then v.fields[key] else JNull
  }
}
