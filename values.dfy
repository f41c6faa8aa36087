/** Values that flow through the server: JSON request bodies, query
    parameters that may be missing, and JavaScript truthiness. */
module Values {

  /** A field of a request that may be `undefined`. */
  datatype Option<T> = None | Some(value: T)

  /** A JSON value as the body parser delivers it.  JSON numbers are
      modelled as reals; `NaN` cannot occur in JSON. */
  datatype Json =
    | JNull
    | JBool(b: bool)
    | JNum(n: real)
    | JStr(s: string)
    | JArr(items: seq<Json>)
    | JObj(fields: map<string, Json>)

  /** JavaScript truthiness of a JSON value: `null`, `false`, `0` and `""`
      are falsy; every array and object, even an empty one, is truthy. */
  predicate Truthy(v: Json): (r: bool)
    ensures !r <==> v == JNull || v == JBool(false) || v == JNum(0.0) || v == JStr("")
  {
    match v
    case JNull => false
    case JBool(b) => b
    case JNum(n) => n != 0.0
    case JStr(s) => s != ""
    case JArr(_) => true
    case JObj(_) => true
  }

  /** Truthiness of a field that may be `undefined` (undefined is falsy). */
  predicate Present(x: Option<Json>): (r: bool)
    ensures !r <==> x == None || x == Some(JNull) || x == Some(JBool(false)) ||
                    x == Some(JNum(0.0)) || x == Some(JStr(""))
  {
    x.Some? && Truthy(x.value)
  }

  /** Truthiness of a string parameter that may be missing. */
  predicate PresentString(x: Option<string>) {
    x.Some? && x.value != ""
  }

  /** JavaScript `x || fallback` for a field that may be `undefined`. */
  function OrJson(x: Option<Json>, fallback: Json): (r: Json)
    ensures Present(x) ==> r == x.value
    ensures !Present(x) ==> r == fallback
    ensures Truthy(r) <==> Present(x) || Truthy(fallback)
  {
    if Present(x) then x.value else fallback
  }

  /** JavaScript `x || fallback` for a string parameter that may be missing. */
  function OrString(x: Option<string>, fallback: string): (r: string)
    ensures PresentString(x) ==> r == x.value
    ensures !PresentString(x) ==> r == fallback
    ensures r != "" <==> PresentString(x) || fallback != ""
  {
    if PresentString(x) then x.value else fallback
  }
}
