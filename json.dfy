/**
 * Decoded JSON answers of the remote database, with the Python operations
 * the client applies to them: indexing by key, iteration and truthiness.
 * JSON numbers are modelled as integers.
 */
module Json {
  import opened Wrappers

  datatype Value =
    | Null
    | Bool(b: bool)
    | Int(i: int)
    | Str(s: string)
    | List(items: seq<Value>)
    | Object(fields: map<string, Value>)

  /** `v[key]`: a dict lookup; a KeyError or TypeError is a failure. */
  function Get(v: Value, key: string): Option<Value>
  {
    if v.Object? && key in v.fields then Some(v.fields[key]) else None
  }

  /** The elements a `for` loop visits; iterating anything but a list is a failed read here. */
  function Items(v: Value): Option<seq<Value>>
  {
    if v.List? then Some(v.items) else None
  }

  /** Python truthiness of a decoded value. */
  predicate Truthy(v: Value)
  {
    match v
    case Null => false
    case Bool(b) => b
    case Int(i) => i != 0
    case Str(s) => s != ""
    case List(items) => items != []
    case Object(fields) => fields != map[]
  }
}
