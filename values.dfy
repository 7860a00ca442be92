/** The Python values the scraper handles: extracted field values, the parsed
    JSON of an API response and the runtime configuration. */
module Values {

  /** A JSON-like Python value. Python ints and floats are both `Num`. */
  datatype Value =
    | Null
    | Bool(b: bool)
    | Num(x: real)
    | Str(s: string)
    | List(items: seq<Value>)
    | Dict(entries: map<string, Value>)

  /** One extracted record: field name to value (a Python dict). */
  type Record = map<string, Value>

  /** The runtime configuration dict, as loaded from JSON/YAML. */
  type Config = map<string, Value>

  /** The sentinel recorded for a field that resolved to nothing. */
  const NotFound: Value := Str("Not Found")

  /** Python truthiness (`bool(v)`). */
  predicate Truthy(v: Value)
  {
    match v
    case Null => false
    case Bool(b) => b
    case Num(x) => x != 0.0
    case Str(s) => s != ""
    case List(items) => |items| > 0
    case Dict(entries) => |entries| > 0
  }
}
