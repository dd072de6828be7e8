/** Shapes of the JSON-like values the sink reads: optional values, the three
    states of a dictionary key, Python truthiness of strings, and subsequences. */
module Values {

  /** A value the sink reads that may be null: None is Python's `None`, a JSON null. */
  datatype Option<+T> = None | Some(value: T)

  /** One key of a JSON object: missing, present holding null, or present holding a value. */
  datatype Field<+T> = Absent | Null | Present(value: T) {

    /** `d.get(k)`: a missing key and an explicit null both read as None. */
    function Get(): (r: Option<T>)
      ensures r.Some? <==> Present?
      ensures r.Some? ==> r.value == value
    {
      match this
      case Present(v) => Some(v)
      case _ => None
    }

    /** `d.get(k, default)`: only a missing key falls back to the default;
        an explicit null still reads as None, so the result stays optional
        rather than being a plain `T`. */
    function GetWithDefault(default: T): (r: Option<T>)
      ensures Absent? ==> r == Some(default)
      ensures Null? ==> r == None
      ensures Present? ==> r == Some(value)
    {
      match this
      case Absent => Some(default)
      case Null => None
      case Present(v) => Some(v)
    }
  }

  /** Python truthiness of an optional string: None and "" are false. */
  predicate Truthy(s: Option<string>)
  {
    s.Some? && s.value != ""
  }

  /** `a` is obtained from `b` by deleting elements, keeping the rest in order. */
  predicate IsSubsequence<T(==)>(a: seq<T>, b: seq<T>)
    decreases |b|
  {
    if |a| == 0 then true
    else if |b| == 0 then false
    else (a[0] == b[0] && IsSubsequence(a[1..], b[1..])) || IsSubsequence(a, b[1..])
  }
}
