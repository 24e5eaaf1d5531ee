/** JSON-like values as both halves of the system exchange them (JavaScript objects
    and Python dicts), with each language's truthiness, optional-chaining
    field access and the `||` / `or` fallback. A missing field and an
    explicit null are the same value here. */
module Json {
  import opened Wrappers

  datatype Json =
    | JNull
    | JBool(b: bool)
    | JNum(n: int)
    | JStr(s: string)
    | JArr(items: seq<Json>)
    | JObj(fields: map<string, Json>)

  /** JavaScript truthiness: objects and arrays are always truthy. */
  predicate JsTruthy(v: Json) {
    match v
    case JNull => false
    case JBool(b) => b
    case JNum(n) => n != 0
    case JStr(s) => s != ""
    case _ => true
  }

  /** Python truthiness: empty lists and dicts are falsy too. */
  predicate PyTruthy(v: Json) {
    match v
    case JNull => false
    case JBool(b) => b
    case JNum(n) => n != 0
    case JStr(s) => s != ""
    case JArr(items) => items != []
    case JObj(f) => |f| != 0
  }

  /** `v?.k` / `v.get(k)`: the field of an object, null otherwise. */
  function Get(v: Json, k: string): (r: Json)
    ensures !v.JObj? ==> r == JNull
    ensures v.JObj? && k in v.fields ==> r == v.fields[k]
  {
    if v.JObj? && k in v.fields then v.fields[k] else JNull
  }

  /** Python `d.get(k, default)`: the stored value, even a null one, when
      the key is there. */
  function GetOr(m: map<string, Json>, k: string, default: Json): (r: Json)
    ensures k in m ==> r == m[k]
    ensures k !in m ==> r == default
  {
    if k in m then m[k] else default
  }

  /** JavaScript `a || b`. */
  function JsOr(a: Json, b: Json): (r: Json)
    ensures JsTruthy(a) ==> r == a
    ensures !JsTruthy(a) ==> r == b
  {
    if JsTruthy(a) then a else b
  }

  /** Python `a or b`. */
  function PyOr(a: Json, b: Json): (r: Json)
    ensures PyTruthy(a) ==> r == a
    ensures !PyTruthy(a) ==> r == b
  {
    if PyTruthy(a) then a else b
  }

  /** The string, when the value is one (`typeof v === 'string'` / `isinstance(v, str)`). */
  function AsString(v: Json): (r: Option<string>)
    ensures r.Some? <==> v.JStr?
  {
    if v.JStr? then Some(v.s) else None
  }

  /** A non-empty string value, or the default (`v || d` where v is expected to be a string). */
  function StrOr(v: Json, d: string): (r: string)
    ensures v.JStr? && v.s != "" ==> r == v.s
    ensures !(v.JStr? && v.s != "") ==> r == d
  {
    if v.JStr? && v.s != "" then v.s else d
  }
}
