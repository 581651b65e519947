/** Decoded JSON values, and the truthiness tests JavaScript and Python apply
    to them. Parsing itself is not modelled: a decoder's outcome is a value
    of `Decoded`, supplied by the caller of each operation. */
module Json {

  import opened Results

  /** A JSON value. Numbers are integral here; objects are finite maps from
      keys to values (key order is not modelled). */
  datatype Json =
    | JNull
    | JBool(b: bool)
    | JNum(n: int)
    | JStr(s: string)
    | JArr(items: seq<Json>)
    | JObj(fields: map<string, Json>)

  /** Outcome of `JSON.parse` on a text; a failure carries the text of the
      `SyntaxError` it throws, as `String(error)` renders it. */
  datatype Decoded = NotJson(error: string) | Parsed(value: Json)

  /** Python's `bool(v)` on the value `json.loads` produces: false exactly
      for `None`, `False`, zero and the empty string, list and dict. */
  function PyTruthy(v: Json): (b: bool)
    ensures !b <==> v in {JNull, JBool(false), JNum(0), JStr(""), JArr([]), JObj(map[])}
  {
    match v
    case JNull => false
    case JBool(b) => b
    case JNum(n) => n != 0
    case JStr(s) => |s| > 0
    case JArr(items) => |items| > 0
    case JObj(fields) => |fields| > 0
  }

  /** `v[key]` in JavaScript (or `dict.get`): the field's value when `v` is an
      object that has it, and nothing otherwise. */
  function Field(v: Json, key: string): (r: Option<Json>)
    ensures r.Some? <==> v.JObj? && key in v.fields
    ensures r.Some? ==> r.value == v.fields[key]
  {
    if v.JObj? && key in v.fields then Some(v.fields[key]) else None
  }
}
