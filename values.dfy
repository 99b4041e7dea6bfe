/**
 * Python values and exceptions as the core sees them.
 *
 * A `Value` is what a JSON document, an SQLite row cell, a TSV field or a
 * remote response can hold once it is in Python: None, bool, int, float,
 * str, list, tuple, set, dict, and record-like objects (named tuples and
 * dataclasses).  Floats are exact reals (rounding is not modelled); a set is
 * kept as its elements in iteration order; dict keys are strings.
 */
module Values {

  datatype Option<T> = None | Some(value: T)

  /** The outcome of a Python call: a returned value or a raised exception. */
  datatype Result<T> = Ok(value: T) | Err(error: Exc)

  datatype Value =
    | VNone
    | VBool(b: bool)
    | VInt(i: int)
    | VFloat(r: real)
    | VStr(s: string)
    | VList(items: seq<Value>)
    | VTuple(items: seq<Value>)
    | VSet(items: seq<Value>)
    | VDict(m: map<string, Value>)
    | VRecord(fields: map<string, Value>)

  /** The exception classes the core raises, catches or lets escape. */
  datatype Exc =
    | HttpError(code: int)
    | UrlError
    | UnicodeDecodeError
    | Timeout
    | JsonDecodeError(args: seq<Value>)
    | TypeError
    | ValueError
    | KeyError
    | IndexError
    | AttributeError
    | RuntimeError
    | KeyValueError(key: string, val: Value)
    | WikiError(msg: string, query: string, httpCode: Option<int>)
    | OtherError(name: string)

  /** Can the value be a dict key or an argument of a `functools.cache`d
      call?  Lists, sets and dicts cannot, nor a dataclass record (eq
      without frozen drops `__hash__`); a tuple can when its items can. */
  predicate Hashable(v: Value) {
    match v
    case VList(_) => false
    case VSet(_) => false
    case VDict(_) => false
    case VRecord(_) => false
    case VTuple(xs) => forall i :: 0 <= i < |xs| ==> Hashable(xs[i])
    case _ => true
  }

  /** Python truthiness (`bool(v)`). */
  predicate Truthy(v: Value) {
    match v
    case VNone => false
    case VBool(b) => b
    case VInt(i) => i != 0
    case VFloat(r) => r != 0.0
    case VStr(s) => s != []
    case VList(xs) => xs != []
    case VTuple(xs) => xs != []
    case VSet(xs) => xs != []
    case VDict(m) => m != map[]
    case VRecord(_) => true
  }

  /** The number a bool, int or float stands for in numeric comparisons. */
  function Numeric(v: Value): Option<real> {
    match v
    case VBool(b) => Some(if b then 1.0 else 0.0)
    case VInt(i) => Some(i as real)
    case VFloat(r) => Some(r)
    case _ => None
  }

  /** Python `==` on the values the core compares: numbers compare by value
      across bool, int and float; everything else structurally. */
  predicate PyEq(a: Value, b: Value) {
    if Numeric(a).Some? && Numeric(b).Some? then Numeric(a).value == Numeric(b).value
    else a == b
  }

  /** `d.get(k)` on a dict, `None` when the key is missing. */
  function DictGet(m: map<string, Value>, k: string): Value {
    if k in m then m[k] else VNone
  }
}
