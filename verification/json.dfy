/**
 * Decoded JSON, as `json.loads` and `response.json()` hand it to the pipeline,
 * with the parts of Python's semantics the pipeline relies on.
 */
module Json {
  import opened Wrappers

  /** A decoded JSON document. Numbers are modelled as integers; object keys are unordered. */
  datatype Value =
    | Null
    | Bool(b: bool)
    | Num(n: int)
    | Str(s: string)
    | Arr(items: seq<Value>)
    | Obj(fields: map<string, Value>)

  /** Python truthiness of a decoded value: `not v` holds exactly when this is false. */
  predicate Truthy(v: Value)
  {
    match v
    case Null => false
    case Bool(b) => b
    case Num(n) => n != 0
    case Str(s) => s != ""
    case Arr(items) => items != []
    case Obj(fields) => fields != map[]
  }

  /** `v[key]` succeeds only on an object that holds `key` (a list or a string raises TypeError, a missing key KeyError). */
  predicate HasKey(v: Value, key: string)
  {
    v.Obj? && key in v.fields
  }

  /** `item.get(name)` on an object: the field, or Python's `None` (JSON null) when it is missing. */
  function GetOrNull(item: Value, name: string): Value
    requires item.Obj?
  {
    if name in item.fields then item.fields[name] else Null
  }
}
