/**
 The fragment of Python's object and exception model that the integration relies on:
 the shape of a decoded device response, truthiness (`if v:`), subscripting a dict,
 `float(v)`, numeric equality, and evaluation that either returns or raises.
 */
module Python {

  /** A Python object as the device client hands it over (decoded JSON). */
  datatype Value =
    | NoneValue
    | Bool(b: bool)
    | Int(i: int)
    | Float(f: real)
    | Str(s: string)
    | List(items: seq<Value>)
    | Dict(entries: map<string, Value>)

  /** What a numeric client call returns: a number, or `None` for "no reading". */
  type NumberOrNone = v: Value | v.NoneValue? || v.Int? || v.Float? witness NoneValue

  /** The exceptions the modelled code can raise or let escape. */
  datatype Exception =
    | KeyError(key: string)        // `d[k]` on a dict without key `k`
    | TypeError                    // `v[k]` on a value that is not subscriptable by a string
    | ClientError(message: string) // anything the device client raises
    | UpdateFailed                 // the host framework's "this refresh failed"
    | ExceptionGroup               // what a task group raises when one of its tasks raised

  /** The outcome of evaluating a Python expression or call: it returns a value or raises. */
  datatype Result<+T> = Returned(value: T) | Raised(error: Exception) {

    predicate IsFailure() {
      Raised?
    }

    function PropagateFailure<U>(): Result<U>
      requires Raised?
    {
      Raised(error)
    }

    function Extract(): T
      requires Returned?
    {
      value
    }
  }

  /** Python truthiness: `None`, `False`, numeric zero and empty containers are false. */
  predicate Truthy(v: Value) {
    match v
    case NoneValue => false
    case Bool(b) => b
    case Int(i) => i != 0
    case Float(f) => f != 0.0
    case Str(s) => |s| > 0
    case List(items) => |items| > 0
    case Dict(entries) => |entries| > 0
  }

  /** A number or `None` is falsy exactly when it is `None`, `0` or `0.0`. */
  lemma FalsyNumbers(v: NumberOrNone)
    ensures !Truthy(v) <==> v == NoneValue || v == Int(0) || v == Float(0.0)
  {
  }

  /** `float(v)` for a number. */
  function ToFloat(v: NumberOrNone): (r: real)
    requires !v.NoneValue?
    ensures r == 0.0 <==> !Truthy(v)
  {
    match v
    case Int(i) => i as real
    case Float(f) => f
  }

  /** Python's `v == n` for a number or `None` against an integer literal. */
  predicate EqualsInt(v: NumberOrNone, n: int) {
    match v
    case NoneValue => false
    case Int(i) => i == n
    case Float(f) => f == n as real
  }

  /** `v[key]` for a string key: a dict lookup, KeyError when absent, TypeError on anything else. */
  function GetItem(v: Value, key: string): (r: Result<Value>)
    ensures r.Returned? <==> v.Dict? && key in v.entries
    ensures r.Returned? ==> r.value == v.entries[key]
    ensures !v.Dict? ==> r == Raised(TypeError)
    ensures v.Dict? && key !in v.entries ==> r == Raised(KeyError(key))
  {
    match v
    case Dict(entries) => if key in entries then Returned(entries[key]) else Raised(KeyError(key))
    case _ => Raised(TypeError)
  }
}
