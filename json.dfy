/** The JSON-shaped values that travel in messages and sit in stored documents. */
module JsonData {

  datatype Json =
    | JNull
    | JBool(b: bool)
    | JInt(i: int)
    | JStr(s: string)
    | JArr(items: seq<Json>)
    | JObj(fields: map<string, Json>)

  /** A stored document: field name to value. */
  type Doc = map<string, Json>

  /** Python truthiness of a decoded JSON value: None, False, 0, "", [] and {} are false. */
  predicate Truthy(v: Json) {
    match v
    case JNull => false
    case JBool(b) => b
    case JInt(i) => i != 0
    case JStr(s) => s != ""
    case JArr(items) => |items| > 0
    case JObj(fields) => |fields| > 0
  }

  /** `d.get(key, default)`. */
  function Get(d: Doc, key: string, default: Json): Json {
    if key in d then d[key] else default
  }

  /** A value read as a list; anything else holds no items. */
  function Items(v: Json): seq<Json> {
    if v.JArr? then v.items else []
  }

  /** The JSON array of strings for a list of Python strings. */
  function StrArr(items: seq<string>): (r: Json)
    ensures r.JArr? && |r.items| == |items|
    ensures forall i :: 0 <= i < |items| ==> r.items[i] == JStr(items[i])
  {
    JArr(seq(|items|, i requires 0 <= i < |items| => JStr(items[i])))
  }
}
