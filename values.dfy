/**
 * Configuration values as the YAML loader hands them to the provider:
 * Python's None, booleans, integers, strings, lists and string-keyed
 * mappings. The same type stands for the identifiers the code passes to
 * the cloud driver (resource names, image ids, size names), because the
 * code hands configuration values to the driver unchanged.
 */
module Values {

  datatype Value =
    | Null
    | Bool(b: bool)
    | Int(i: int)
    | Str(s: string)
    | List(items: seq<Value>)
    | Dict(entries: map<string, Value>)

  /** Python truthiness, as `if x:` and `not x` test it. */
  predicate Truthy(v: Value) {
    match v
    case Null => false
    case Bool(b) => b
    case Int(i) => i != 0
    case Str(s) => s != ""
    case List(xs) => xs != []
    case Dict(m) => m != map[]
  }
}
