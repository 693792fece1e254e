/**
 * The values that Python's `json.loads` produces, as the hub and the setup
 * wizard see them: `None`, booleans, integers, strings, lists and dicts.
 */
module JsonValue {

  /** A decoded JSON document. A dict is a map from its (string) keys. */
  datatype Json =
    | Null
    | Bool(b: bool)
    | Num(n: int)
    | Str(s: string)
    | Arr(items: seq<Json>)
    | Obj(fields: map<string, Json>)

  /** Python's truth value of a decoded JSON value (`bool(x)`). */
  predicate Truthy(j: Json) {
    match j
    case Null => false
    case Bool(b) => b
    case Num(n) => n != 0
    case Str(s) => s != ""
    case Arr(items) => items != []
    case Obj(fields) => fields != map[]
  }

  /** `d.get(key, default)` on a dict. */
  function GetOr(fields: map<string, Json>, key: string, default: Json): Json {
    if key in fields then fields[key] else default
  }

  /** `d.get(key)`: `None` when the key is absent. */
  function Get(fields: map<string, Json>, key: string): Json {
    GetOr(fields, key, Null)
  }

  /** Python's `a or b` on two JSON values. */
  function Or(a: Json, b: Json): Json {
    if Truthy(a) then a else b
  }
}
