/**
 The loosely-typed records the system passes around (event dictionaries,
 work-order snapshots, configuration files): JSON-like values with
 Python's truthiness and `dict.get` semantics.
 */
module Json {
  import opened Dicts

  datatype Value =
    | Null
    | Bool(b: bool)
    | Num(n: real)
    | Str(s: string)
    | Arr(items: seq<Value>)
    | Obj(fields: Dict<string, Value>)

  type Fields = Dict<string, Value>

  /** Python's `bool(v)`: `None`, `False`, `0`, empty strings, lists and dicts are false. */
  predicate Truthy(v: Value)
  {
    match v
    case Null => false
    case Bool(b) => b
    case Num(n) => n != 0.0
    case Str(s) => |s| > 0
    case Arr(items) => |items| > 0
    case Obj(f) => |f.keys| > 0
  }

  /** JavaScript's truthiness of a decoded JSON value: objects and arrays are always true. */
  predicate JsTruthy(v: Value)
  {
    match v
    case Null => false
    case Bool(b) => b
    case Num(n) => n != 0.0
    case Str(s) => |s| > 0
    case Arr(_) => true
    case Obj(_) => true
  }

  /** Python's `a or b`. */
  function Or(a: Value, b: Value): (r: Value)
    ensures Truthy(a) ==> r == a
    ensures !Truthy(a) ==> r == b
  {
    if Truthy(a) then a else b
  }

  /** `d.get(k)`: `None` when the key is absent. */
  function Get(d: Fields, k: string): (r: Value)
    ensures k in d.vals ==> r == d.vals[k]
    ensures k !in d.vals ==> r == Null
  {
    GetOr(d, k, Null)
  }

  /** `v.get(k)` on a value that may not be a dictionary (the model's reading of `isinstance(v, dict) and v.get(k)`). */
  function Field(v: Value, k: string): (r: Value)
    ensures v.Obj? && k in v.fields.vals ==> r == v.fields.vals[k]
    ensures !v.Obj? ==> r == Null
  {
    if v.Obj? then Get(v.fields, k) else Null
  }

  function EmptyObj(): (r: Value)
    ensures r.Obj? && r.fields.keys == []
  {
    Obj(Empty())
  }
}
