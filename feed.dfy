/** The decoded JSON feed: the values Python's json module produces, and the few
    Python operations on them (truthiness, `or`, `dict.get`, `str`) the core relies on. */
module Feed {

  datatype Option<+T> = None | Some(value: T)

  datatype Result<+T, +E> = Ok(value: T) | Err(error: E)

  /** A decoded JSON value. `Null` is Python's `None`; a number is carried as the
      text Python's `str()` gives for it (`"-110"`, `"220.5"`). */
  datatype Value =
    | Obj(fields: map<string, Value>)
    | Arr(items: seq<Value>)
    | Str(text: string)
    | Num(repr: string)
    | Bool(b: bool)
    | Null

  /** Values that are neither a list nor a dict. */
  predicate IsScalar(v: Value) {
    !v.Obj? && !v.Arr?
  }

  /** Python's `bool(v)`: empty containers, the empty string, zero, `False` and `None` are false. */
  predicate Truthy(v: Value) {
    match v
    case Obj(m) => |m| != 0
    case Arr(xs) => |xs| != 0
    case Str(s) => s != ""
    case Num(r) => r != "0" && r != "0.0" && r != "-0.0"
    case Bool(b) => b
    case Null => false
  }

  /** Python's `a or b`: the first operand when it is truthy, the second otherwise. */
  function Or(a: Value, b: Value): Value {
    if Truthy(a) then a else b
  }

  /** Python's `d.get(key)`: the stored value, or `None` for a missing key. */
  function DictGet(m: map<string, Value>, key: string): Value {
    if key in m then m[key] else Null
  }

  /** Python's `str(v)` for a scalar. */
  function Render(v: Value): string
    requires IsScalar(v)
  {
    match v
    case Str(s) => s
    case Num(r) => r
    case Bool(b) => if b then "True" else "False"
    case Null => "None"
  }
}
