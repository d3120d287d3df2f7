/** JSON scalars as Python sees them after json.loads, and the coercions the
    consumer applies to them: truthiness (`x or default`), float(x) and int(x). */
module PyValues {

  datatype Option<+T> = None | Some(value: T)

  /** A JSON scalar. A JSON string is always taken as non-numeric text: the
      model never reads a number out of a string. */
  datatype Value = Null | Bool(b: bool) | Int(i: int) | Real(r: real) | Text(s: string)

  /** Python truthiness of a scalar. */
  predicate Truthy(v: Value) {
    match v
    case Null => false
    case Bool(b) => b
    case Int(i) => i != 0
    case Real(r) => r != 0.0
    case Text(s) => s != ""
  }

  /** Python's `v or d`. */
  function Or(v: Value, d: Value): Value {
    if Truthy(v) then v else d
  }

  /** int(r) for a float: truncation toward zero. */
  function Trunc(r: real): (n: int)
    ensures r >= 0.0 ==> n as real <= r < n as real + 1.0
    ensures r < 0.0 ==> n as real - 1.0 < r <= n as real
  {
    if r >= 0.0 then r.Floor else -((-r).Floor)
  }

  /** float(v); None where Python raises (None, or text). */
  function FloatOf(v: Value): (r: Option<real>)
    ensures r.None? <==> v.Null? || v.Text?
    ensures v.Int? ==> r == Some(v.i as real)
    ensures v.Real? ==> r == Some(v.r)
  {
    match v
    case Null => None
    case Bool(b) => Some(if b then 1.0 else 0.0)
    case Int(i) => Some(i as real)
    case Real(r) => Some(r)
    case Text(_) => None
  }

  /** int(v); None where Python raises (None, or text). */
  function IntOf(v: Value): (r: Option<int>)
    ensures r.None? <==> v.Null? || v.Text?
    ensures v.Int? ==> r == Some(v.i)
    ensures v.Real? ==> r.Some? && -1.0 < r.value as real - v.r < 1.0
  {
    match v
    case Null => None
    case Bool(b) => Some(if b then 1 else 0)
    case Int(i) => Some(i)
    case Real(r) => Some(Trunc(r))
    case Text(_) => None
  }
}
