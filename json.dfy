/**
 * Decoded JSON values as the Python code sees them after `json.loads`,
 * with Python's truthiness and `dict.get`.
 */
module Json {

  /** Python's `None` versus a value. */
  datatype Option<+T> = None | Some(value: T)

  /** A decoded JSON document. Numbers are integers in this model. */
  datatype Value =
    | Null
    | Bool(b: bool)
    | Num(n: int)
    | Str(s: string)
    | Arr(items: seq<Value>)
    | Obj(fields: map<string, Value>)

  /** Python truthiness (`if v:`): false exactly for None, False, 0, "", [] and {}. */
  predicate Truthy(v: Value)
    ensures Truthy(v) <==> v !in {Null, Bool(false), Num(0), Str(""), Arr([]), Obj(map[])}
  {
    match v
    case Null => false
    case Bool(b) => b
    case Num(n) => n != 0
    case Str(s) => s != ""
    case Arr(items) => items != []
    case Obj(fields) => fields != map[]
  }

  /** `m.get(key)`: the value stored under `key`, or None. */
  function Get(m: map<string, Value>, key: string): Value
  {
    if key in m then m[key] else Null
  }
}
