/** Decoded JSON values, and the Python operations the handler applies to them. */
module JsonValues {
  import opened Wrappers
  import opened Strings

  /** A value as `json.loads` returns it (numbers kept as integers). */
  datatype Json =
    | JNull
    | JBool(b: bool)
    | JNum(n: int)
    | JStr(s: string)
    | JArr(items: seq<Json>)
    | JObj(fields: map<string, Json>)

  /** `d.get(key)` on a dictionary: `None` for a missing key and for a JSON `null` alike. */
  function Get(fields: map<string, Json>, key: string): Json {
    if key in fields then fields[key] else JNull
  }

  /** Python truthiness. */
  predicate Truthy(v: Json) {
    match v
    case JNull => false
    case JBool(b) => b
    case JNum(n) => n != 0
    case JStr(s) => s != ""
    case JArr(items) => items != []
    case JObj(fields) => |fields| > 0
  }

  /**
   * Python's `key in v`: key membership on a dictionary, substring search on a string,
   * element membership on a list; `None` where Python raises `TypeError`.
   */
  function MemberTest(key: string, v: Json): (r: Option<bool>)
    ensures r.None? <==> v.JNull? || v.JBool? || v.JNum?
    ensures v.JObj? ==> r == Some(key in v.fields)
  {
    match v
    case JObj(fields) => Some(key in fields)
    case JStr(s) => Some(Contains(s, key))
    case JArr(items) => Some(JStr(key) in items)
    case _ => None
  }
}
