/**
 * The slice of Python's value model the recorded commands carry: floats with
 * NaN and infinities, and the JSON-like values stored in command data, style
 * dicts and metadata.
 */
module PyValues {
  import opened Wrappers

  /** A Python float: a finite real, NaN, or one of the two infinities. */
  datatype Float = Fin(r: real) | NaN | PosInf | NegInf

  /** Python's `a > b` on floats; every comparison with NaN is false. */
  predicate Greater(a: Float, b: Float)
  {
    match (a, b)
    case (Fin(x), Fin(y)) => x > y
    case (PosInf, Fin(_)) => true
    case (PosInf, NegInf) => true
    case (Fin(_), NegInf) => true
    case _ => false
  }

  /** `f` is a number no smaller than `c` (an infinity counts as large). */
  predicate AtLeast(f: Float, c: real)
  {
    f.PosInf? || (f.Fin? && f.r >= c)
  }

  /** Python's `max(lo, f)` for a finite floor `lo`: f when f > lo, else lo. */
  function MaxWith(lo: real, f: Float): (r: Float)
    ensures AtLeast(r, lo)
    ensures r == f || r == Fin(lo)
    ensures r == f <==> Greater(f, Fin(lo)) || f == Fin(lo)
  {
    if Greater(f, Fin(lo)) then f else Fin(lo)
  }

  /** Python's `f * c` for a float and a finite constant `c`. */
  function Times(f: Float, c: real): (r: Float)
    ensures f.Fin? ==> r == Fin(f.r * c)
    ensures f.NaN? ==> r.NaN?
    ensures !f.Fin? && c == 0.0 ==> r.NaN?
  {
    match f
    case Fin(_) => Fin(f.r * c)
    case NaN => NaN
    case PosInf => if c > 0.0 then PosInf else if c < 0.0 then NegInf else NaN
    case NegInf => if c > 0.0 then NegInf else if c < 0.0 then PosInf else NaN
  }

  /** A value as stored in a command's data, style or metadata. */
  datatype Value =
    | VNone
    | VBool(b: bool)
    | VInt(i: int)
    | VFloat(f: Float)
    | VStr(s: string)
    | VList(items: seq<Value>)
    | VDict(entries: map<string, Value>)

  /** Python truthiness (NaN is truthy, as in Python). */
  predicate Truthy(v: Value)
  {
    match v
    case VNone => false
    case VBool(b) => b
    case VInt(i) => i != 0
    case VFloat(f) => f != Fin(0.0)
    case VStr(s) => s != ""
    case VList(xs) => xs != []
    case VDict(m) => m != map[]
  }

  /** `d.get(k, default)`. */
  function Get(d: map<string, Value>, k: string, default: Value): Value
  {
    if k in d then d[k] else default
  }

  /** `float(v)` for a number (bool, int or float); None where float() is not modelled to succeed. */
  function ToFloat(v: Value): Option<Float>
  {
    match v
    case VBool(b) => Some(Fin(if b then 1.0 else 0.0))
    case VInt(i) => Some(Fin(i as real))
    case VFloat(f) => Some(f)
    case _ => None
  }

  /** `isinstance(v, (int, float))` (bool is a subclass of int). */
  predicate IsNumber(v: Value)
  {
    v.VBool? || v.VInt? || v.VFloat?
  }

  /** The value can be a dict key or a tuple member of one: lists and dicts are unhashable. */
  predicate Hashable(v: Value)
  {
    !v.VList? && !v.VDict?
  }

  /** The one-character strings of `s`, as iterating a Python str yields them. */
  function Chars(s: string): (r: seq<Value>)
    ensures |r| == |s|
    ensures forall i :: 0 <= i < |s| ==> r[i] == VStr([s[i]])
  {
    if s == [] then [] else [VStr([s[0]])] + Chars(s[1..])
  }

  /**
   * `list(v)`: a list or tuple gives its items, a string its characters;
   * anything else is treated as not iterable (iteration order of a dict is not modelled).
   */
  function PyList(v: Value): Option<seq<Value>>
  {
    match v
    case VList(xs) => Some(xs)
    case VStr(s) => Some(Chars(s))
    case _ => None
  }

  /** `v[i]` on a list or tuple; None models the IndexError/TypeError. */
  function Index(v: Value, i: nat): Option<Value>
  {
    if v.VList? && i < |v.items| then Some(v.items[i]) else None
  }

  function FloatValue(f: Float): Value { VFloat(f) }

  /** A tuple `(x, y)` of two floats, as stored in point lists. */
  function Pair(x: Float, y: Float): Value { VList([VFloat(x), VFloat(y)]) }
}
