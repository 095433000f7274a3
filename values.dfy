/** Values that cross the session bus, and the outcome of one remote call. */
module Values {

  datatype Option<+T> = None | Some(value: T)

  /** The outcome of one D-Bus call: its reply, or an exception of any kind
      (peer gone, time-out, error reply). */
  datatype Reply<+T> = Success(value: T) | Failure

  /** A D-Bus value as the Python binding hands it over; `Null` is Python's None. */
  datatype Value =
    | Null
    | Bool(b: bool)
    | Int(i: int)
    | Str(s: string)
    | Array(items: seq<Value>)

  /** Python truthiness, as in `if v:`. */
  predicate Truthy(v: Value)
  {
    match v
    case Null => false
    case Bool(b) => b
    case Int(i) => i != 0
    case Str(s) => s != []
    case Array(items) => items != []
  }

  /** `d.get(key)`: the stored value, or None when the key is absent. */
  function Get(d: map<string, Value>, key: string): Value
  {
    if key in d then d[key] else Null
  }

  /** Concatenation is associative. */
  lemma SeqAssoc<T>(a: seq<T>, b: seq<T>, c: seq<T>)
    ensures a + (b + c) == (a + b) + c
  {
  }
}
