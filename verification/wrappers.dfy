/** Shared value types: optional values, results, bytes and JSON-shaped values. */
module Wrappers {

  /** A value that may be absent: a missing dictionary key or a `None`. */
  datatype Option<+T> = None | Some(value: T)

  /** The outcome of an operation that either returns a value or raises. */
  datatype Result<+T, +E> = Ok(value: T) | Err(error: E)

  /** One octet of raw (decoded) audio or of an upstream payload. */
  type Byte = b: int | 0 <= b < 256

  /** A JSON-shaped value, as stored in the session configuration and in tool definitions. */
  datatype Json =
    | Null
    | Bool(b: bool)
    | Num(n: real)
    | Str(s: string)
    | Arr(elems: seq<Json>)
    | Obj(fields: map<string, Json>)

  /** Python truthiness of a JSON-shaped value: `None`, `False`, `0`, `""`, `[]` and `{}` are false. */
  predicate Truthy(j: Json)
  {
    match j
    case Null => false
    case Bool(b) => b
    case Num(n) => n != 0.0
    case Str(s) => s != ""
    case Arr(e) => e != []
    case Obj(f) => f != map[]
  }
}
