/** JSON-like values as Python holds them after `json.loads`, plus the
    `Decimal` leaves that the log aggregator introduces before a table write. */
module Json {
  import opened Wrappers

  datatype Value =
    | Null
    | Bool(b: bool)
    | Int(i: int)
    | Float(f: real)
    | Decimal(d: real)
    | Str(s: string)
    | List(items: seq<Value>)
    | Dict(fields: map<string, Value>)

  /** A Python dict with string keys (key order is not modelled). */
  type Object = map<string, Value>

  /** `obj.get(key, default)` */
  function Get(obj: Object, key: string, default: Value): Value
  {
    if key in obj then obj[key] else default
  }

  /** The number a value stands for when Python subtracts or adds it to a
      float or an int; `None` is the `TypeError` Python raises instead
      (strings, null, lists, dicts, and a `Decimal` mixed with a float). */
  function AsNumber(v: Value): Option<real>
  {
    match v
    case Bool(b) => Some(if b then 1.0 else 0.0)
    case Int(i) => Some(i as real)
    case Float(f) => Some(f)
    case _ => None
  }

  /** Python can use the value as a dict key (lists and dicts are unhashable). */
  predicate Hashable(v: Value)
  {
    !v.List? && !v.Dict?
  }

  function Abs(x: real): real
  {
    if x < 0.0 then -x else x
  }
}
