/** JSON values as Python sees them, and the keys of Python dictionaries. */
module Json {
  import opened Wire
  import opened Text

  datatype Json =
    | Null
    | Bool(b: bool)
    | Int(n: int)
    | Float(r: real)
    | NaN
    | Infinite(negative: bool)
    | Str(s: string)
    | List(items: seq<Json>)
    | Obj(fields: map<string, Json>)

  /** A dictionary key, up to Python equality: `True`, `1` and `1.0` are one key. */
  datatype Key = NoneKey | Number(r: real) | NaNKey | InfiniteKey(negative: bool) | Text(s: string)

  /** The key a value makes, if it is hashable. */
  function KeyOf(j: Json): Option<Key> {
    match j
    case Null => Some(NoneKey)
    case Bool(b) => Some(Number(if b then 1.0 else 0.0))
    case Int(n) => Some(Number(n as real))
    case Float(r) => Some(Number(r))
    case NaN => Some(NaNKey)
    case Infinite(negative) => Some(InfiniteKey(negative))
    case Str(s) => Some(Text(s))
    case List(_) => None
    case Obj(_) => None
  }

  /** Python's `==`; containers are compared as they are written. */
  predicate Equal(a: Json, b: Json) {
    if KeyOf(a).Some? && KeyOf(b).Some? then !a.NaN? && KeyOf(a) == KeyOf(b) else a == b
  }

  /** Python's `not j` */
  predicate Falsy(j: Json) {
    match j
    case Null => true
    case Bool(b) => !b
    case Int(n) => n == 0
    case Float(r) => r == 0.0
    case Str(s) => s == ""
    case List(items) => items == []
    case Obj(fields) => fields == map[]
    case _ => false
  }

  type Fields = map<string, Json>

  /** `fields.get(name)` */
  function Get(fields: Fields, name: string): Json {
    if name in fields then fields[name] else Null
  }

  const TWO_64: int := 0x1_0000_0000_0000_0000
  const TWO_256: int := TWO_64 * TWO_64 * TWO_64 * TWO_64

  /** 2**1024 - 2**970: `float(n)` raises for integers from here on. */
  const FLOAT_LIMIT: int :=
    TWO_256 * TWO_256 * TWO_256 * TWO_256 - TWO_256 * TWO_256 * TWO_256 * TWO_64 * TWO_64 * TWO_64 * 1024

  /** `_is_finite_number`, and then its value. */
  function Finite(j: Json): Option<real> {
    match j
    case Int(n) => if -FLOAT_LIMIT < n < FLOAT_LIMIT then Some(n as real) else None
    case Float(r) => Some(r)
    case _ => None
  }

  function Truncate(r: real): int {
    if r >= 0.0 then r.Floor else -((-r).Floor)
  }

  /** `_to_optional_int`: `int(value)`, but not for booleans; `None` when it raises. */
  function ToOptionalInt(j: Json): Option<int> {
    match j
    case Int(n) => Some(n)
    case Float(r) => Some(Truncate(r))
    case Str(s) => ParseInt(s)
    case _ => None
  }

  /** `_to_int` with default 0. */
  function ToInt(j: Json): int {
    var n := ToOptionalInt(j);
    if n.Some? then n.value else 0
  }
}
