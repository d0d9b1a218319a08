/** JSON values as the event store sees them after parsing, with Python's truthiness. */
module Json {
  import opened Wrappers

  // A binary float is mantissa * 2^exponent; JSON carries no NaN and no infinity.
  datatype Json =
    | Null
    | Bool(b: bool)
    | Num(n: int)
    | Float(mantissa: int, exponent: int)
    | Str(s: string)
    | Arr(items: seq<Json>)
    | Obj(fields: map<string, Json>)

  type Payload = map<string, Json>

  predicate Truthy(j: Json) {
    match j
    case Null => false
    case Bool(b) => b
    case Num(n) => n != 0
    case Float(m, _) => m != 0
    case Str(s) => s != ""
    case Arr(items) => items != []
    case Obj(fields) => fields != map[]
  }

  /** `payload.get(key)`: a missing key and a JSON null read the same. */
  function Get(p: Payload, key: string): Json {
    if key in p then p[key] else Null
  }

  /** `payload.get(key, fallback)`: a JSON null that is present wins over the fallback. */
  function GetOr(p: Payload, key: string, fallback: Json): Json {
    if key in p then p[key] else fallback
  }

  /** Python's `a or b`. */
  function Or(a: Json, b: Json): Json {
    if Truthy(a) then a else b
  }

  function OfText(t: Option<string>): Json {
    match t
    case None => Null
    case Some(s) => Str(s)
  }

  /** `isinstance(j, str) and j`. */
  function NonEmptyText(j: Json): (r: Option<string>)
    ensures r.Some? ==> r.value != "" && j == Str(r.value)
  {
    if j.Str? && j.s != "" then Some(j.s) else None
  }
}
