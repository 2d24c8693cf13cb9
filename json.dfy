/**
 * Loaded JSON as the scrapers see it: a value of one of Python's JSON
 * types, with Python's truthiness and `dict.get`. Objects are maps from
 * keys to values. Floating-point numbers and the insertion
 * order of keys are not modelled.
 */
module Json {
  import opened PyText

  datatype Value =
    | Null
    | Bool(b: bool)
    | Int(i: int)
    | Str(s: string)
    | List(items: seq<Value>)
    | Object(fields: map<string, Value>)

  /** A scraped record: a dict from field names to values. */
  type Record = map<string, Value>

  /** `bool(v)`: None, False, 0, "" and empty containers are falsy. */
  predicate Truthy(v: Value) {
    match v
    case Null => false
    case Bool(b) => b
    case Int(i) => i != 0
    case Str(s) => s != ""
    case List(items) => |items| > 0
    case Object(fields) => fields != map[]
  }

  /** `r.get(k)`: the value under `k`, or None. */
  function Get(r: Record, k: string): Value {
    if k in r then r[k] else Null
  }

  /** `key in v` for a string key: a dict's keys, a list's elements, a string's substrings; None where Python raises a TypeError. */
  function Member(key: string, v: Value): (r: Option<bool>)
    ensures r.None? <==> !(v.Object? || v.List? || v.Str?)
    ensures v.Object? ==> r == Some(key in v.fields)
  {
    match v
    case Object(fields) => Some(key in fields)
    case List(items) => Some(Str(key) in items)
    case Str(s) => Some(Contains(s, key))
    case _ => None
  }

  /** `v[key]` for a string key: the value a dict holds under it; None where Python raises a KeyError or TypeError. */
  function Index(v: Value, key: string): (r: Option<Value>)
    ensures r.Some? <==> v.Object? && key in v.fields
  {
    if v.Object? && key in v.fields then Some(v.fields[key]) else None
  }
}
