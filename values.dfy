/** Decoded JSON values as the device code sees them after parsing, with the
    parts of Python's value semantics that the device logic relies on. */
module Values {

  datatype Option<+T> = None | Some(value: T)

  /** A JSON value. Numbers are integers only; floating point is not modelled. */
  datatype Value =
    | Null
    | Bool(b: bool)
    | Int(i: int)
    | Str(s: string)
    | Arr(items: seq<Value>)
    | Obj(fields: map<string, Value>)

  /** Python truthiness: `if v:` takes the branch exactly when Truthy(v). */
  predicate Truthy(v: Value) {
    match v
    case Null => false
    case Bool(b) => b
    case Int(i) => i != 0
    case Str(s) => s != ""
    case Arr(items) => items != []
    case Obj(fields) => fields != map[]
  }

  /** Python's `v < n` for an integer `n`: a bool compares as 0 or 1, and any
      other non-integer raises TypeError, which is `None` here. */
  function LessThan(v: Value, n: int): Option<bool> {
    match v
    case Int(i) => Some(i < n)
    case Bool(b) => Some((if b then 1 else 0) < n)
    case _ => None
  }
}
