/** Configuration values as the structured-data parser produces them, and the
    small wrapper types the rest of the model uses. */
module Values {

  datatype Option<+T> = None | Some(value: T)

  /** The outcome of an operation that can raise: a value, or the error it raised. */
  datatype Result<+T, +E> = Ok(value: T) | Err(error: E)

  /** A parsed configuration value: a mapping, a scalar or a list. */
  datatype Value =
    | VMap(entries: map<string, Value>)
    | VStr(str: string)
    | VBool(flag: bool)
    | VInt(num: int)
    | VFloat(fraction: real)
    | VList(items: seq<Value>)
    | VNull

  /** A configuration tree: a string-keyed mapping whose order is irrelevant. */
  type Tree = map<string, Value>

  /** Python truthiness of a parsed value: empty containers, zero, the empty
      string, False and None are falsy. */
  predicate Truthy(v: Value)
  {
    match v
    case VMap(m) => m != map[]
    case VStr(s) => s != ""
    case VBool(b) => b
    case VInt(i) => i != 0
    case VFloat(r) => r != 0.0
    case VList(l) => l != []
    case VNull => false
  }

  /** `d.get(key, fallback)` on a mapping. */
  function Get(m: Tree, key: string, fallback: Value): Value
  {
    if key in m then m[key] else fallback
  }
}
