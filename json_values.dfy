/** Scalar values of decoded JSON payloads, and the few Python operations the
    ground station applies to them: truthiness, `abs`, comparison with an
    integer literal, and use as a list index. */
module JsonValues {

  datatype Option<+T> = None | Some(value: T) {
    function GetOr(default: T): T {
      match this
      case Some(v) => v
      case None => default
    }
  }

  /** A JSON scalar after decoding. Python keeps `int` and `float` apart and
      treats `bool` as a subclass of `int`; the model keeps every kind apart
      and states explicitly where Python mixes them. */
  datatype Value = Null | Bool(b: bool) | Int(i: int) | Real(r: real) | Str(s: string)

  /** A decoded JSON object: a dict from field name to value. */
  type Fields = map<string, Value>

  function AbsReal(x: real): real {
    if x < 0.0 then -x else x
  }

  /** Python truthiness, as used by `if v` and `not v`. */
  predicate Truthy(v: Value) {
    match v
    case Null => false
    case Bool(b) => b
    case Int(i) => i != 0
    case Real(r) => r != 0.0
    case Str(s) => s != ""
  }

  /** The kinds on which Python's `abs` is defined. */
  predicate IsNumber(v: Value) {
    v.Bool? || v.Int? || v.Real?
  }

  /** Python's `abs(v)`; `abs(True)` is 1. */
  function Magnitude(v: Value): (m: real)
    requires IsNumber(v)
    ensures m >= 0.0
    ensures m > 0.0 <==> Truthy(v)
  {
    match v
    case Bool(b) => if b then 1.0 else 0.0
    case Int(i) => AbsReal(i as real)
    case Real(r) => AbsReal(r)
  }

  /** Python's `abs(v) > bound`; None is the TypeError that `abs` raises on a
      string or on None. */
  function AbsExceeds(v: Value, bound: real): Option<bool> {
    if IsNumber(v) then Some(Magnitude(v) > bound) else None
  }

  /** Python's `v == n` for an integer literal `n`: `True == 1` and
      `2.0 == 2` hold, a string or None never equals a number. */
  predicate EqualsInt(v: Value, n: int) {
    match v
    case Bool(b) => (if b then 1 else 0) == n
    case Int(i) => i == n
    case Real(r) => r == n as real
    case _ => false
  }

  /** A value used as a list index: an int, or a bool as 0 or 1. Floats,
      strings and None make Python raise TypeError (None here). */
  function AsIndex(v: Value): Option<int> {
    match v
    case Int(i) => Some(i)
    case Bool(b) => Some(if b then 1 else 0)
    case _ => None
  }
}
