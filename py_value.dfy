/** JSON values as the webhook handlers see them after decoding, together with
    the few pieces of Python semantics the handlers rely on: truthiness,
    the `in` operator, subscripting and `dict.get`. Where Python raises a
    TypeError or KeyError the functions here return None. */
module PyValue {

  datatype Option<+T> = None | Some(value: T)

  datatype Result<+T, +E> = Ok(value: T) | Err(error: E)

  /** A decoded JSON value. JSON numbers with a fraction are not modelled. */
  datatype Value =
    | Null
    | Bool(b: bool)
    | Int(i: int)
    | Str(s: string)
    | Arr(items: seq<Value>)
    | Obj(fields: map<string, Value>)

  /** `bool(v)`: None, False, 0 and empty containers are false. */
  predicate Truthy(v: Value)
  {
    match v
    case Null => false
    case Bool(b) => b
    case Int(i) => i != 0
    case Str(s) => s != ""
    case Arr(xs) => xs != []
    case Obj(m) => m != map[]
  }

  /** `needle in hay` for two Python strings. */
  predicate IsSubstring(needle: string, hay: string)
    decreases |hay|
  {
    needle <= hay || (hay != [] && IsSubstring(needle, hay[1..]))
  }

  /** `key in v` for a string key: a key test on a dict, an element test on a
      list, a substring test on a string, and a TypeError on anything else. */
  function Contains(v: Value, key: string): Option<bool>
  {
    match v
    case Obj(m) => Some(key in m)
    case Arr(xs) => Some(Str(key) in xs)
    case Str(s) => Some(IsSubstring(key, s))
    case _ => None
  }

  /** `v[key]` for a string key: KeyError on a dict without the key,
      TypeError on anything that is not a dict. */
  function Subscript(v: Value, key: string): Option<Value>
  {
    if v.Obj? && key in v.fields then Some(v.fields[key]) else None
  }

  /** `d.get(key, default)`: a present key yields its value even when that value is null. */
  function Get(d: map<string, Value>, key: string, default: Value): Value
  {
    if key in d then d[key] else default
  }

  /** The number a value stands for in Python arithmetic (`True + 1 == 2`), or
      None when `+` and `/` with an int raise TypeError. */
  function Numeric(v: Value): Option<int>
  {
    match v
    case Int(i) => Some(i)
    case Bool(b) => Some(if b then 1 else 0)
    case _ => None
  }

  /** `len(v)` is defined (strings, lists, dicts). */
  predicate HasLen(v: Value)
  {
    v.Str? || v.Arr? || v.Obj?
  }
}
