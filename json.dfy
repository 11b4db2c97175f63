/** JSON values as Python's `json.loads` hands them to the rest of the system,
    with the two Python operations the streaming endpoint applies to them:
    truthiness (`if x:`) and subscripting with a string key (`x["key"]`). */
module Json {

  datatype Option<+T> = None | Some(value: T)

  /** A decoded JSON document. Objects become Python dicts, arrays lists. */
  datatype Value =
    | Null
    | Bool(b: bool)
    | Num(n: int)
    | Str(s: string)
    | Arr(items: seq<Value>)
    | Obj(fields: map<string, Value>)

  /** Python truthiness of a decoded value: `None`, `False`, `0`, `""`, `[]`
      and `{}` are false, everything else is true. */
  predicate Truthy(v: Value)
    ensures Truthy(v) <==>
      v != Null && v != Bool(false) && v != Num(0) && v != Str("") && v != Arr([]) && v != Obj(map[])
  {
    match v
    case Null => false
    case Bool(b) => b
    case Num(n) => n != 0
    case Str(s) => s != []
    case Arr(items) => items != []
    case Obj(fields) => fields != map[]
  }

  /** What `x[key]` does in Python: yields a value, raises `KeyError` (a dict
      without the key) or raises `TypeError` (anything that is not a dict). */
  datatype Lookup = Found(value: Value) | KeyError | TypeError

  function Subscript(v: Value, key: string): (r: Lookup)
    ensures r.Found? <==> v.Obj? && key in v.fields
    ensures r.TypeError? <==> !v.Obj?
    ensures r.Found? ==> r.value == v.fields[key]
  {
    match v
    case Obj(fields) => if key in fields then Found(fields[key]) else KeyError
    case _ => TypeError
  }

  /** A chain of subscripts `x[k0][k1]...`; the first exception ends the chain. */
  function LookupPath(v: Value, path: seq<string>): (r: Lookup)
    ensures path == [] ==> r == Found(v)
    ensures |path| == 1 ==> r == Subscript(v, path[0])
    // an exception needs at least one subscript, and a non-dict fails the first
    ensures !r.Found? ==> path != []
    ensures path != [] && !v.Obj? ==> r == TypeError
    decreases |path|
  {
    if path == [] then Found(v)
    else
      match Subscript(v, path[0])
      case Found(child) => LookupPath(child, path[1..])
      case KeyError => KeyError
      case TypeError => TypeError
  }

  /** `x[k0]...[kn]` can be split anywhere: look up a prefix of the keys, then
      the rest in what it found; an exception in the prefix is the result. */
  lemma {:induction false} LookupPathAppend(v: Value, p: seq<string>, q: seq<string>)
    ensures LookupPath(v, p + q) ==
      match LookupPath(v, p)
      case Found(w) => LookupPath(w, q)
      case KeyError => KeyError
      case TypeError => TypeError
    decreases |p|
  {
    if p == [] {
      assert p + q == q;
    } else {
      assert (p + q)[0] == p[0] && (p + q)[1..] == p[1..] + q;
      match Subscript(v, p[0])
      case Found(child) => LookupPathAppend(child, p[1..], q);
      case KeyError =>
      case TypeError =>
    }
  }
}
