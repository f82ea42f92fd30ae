/**
 * Decoded JSON values, as Python's `json` module hands them to the program,
 * and the two ways the program reads them: Python's subscript `j[k]` and
 * truthiness (`if not j`). A generic path walker, At, is the reference that
 * the field extraction is proved against.
 */
module Json {
  import opened Wrappers

  /**
   * A JSON number, kept opaque: the program copies numbers and never does
   * arithmetic on them. The value is mantissa * 10^exponent, read exactly;
   * Python's rounding to a binary float is not modelled, so a literal that
   * rounds to 0.0 still counts as non-zero here.
   */
  datatype Number = Number(mantissa: int, exponent: int)

  datatype Json =
    | JNull
    | JBool(b: bool)
    | JNumber(n: Number)
    | JString(s: string)
    | JArray(items: seq<Json>)
    | JObject(fields: map<string, Json>)

  /** Python truthiness of a decoded value: None, False, 0, "", [] and {} are falsy. */
  predicate Truthy(j: Json)
    ensures !Truthy(j) <==>
      j in {JNull, JBool(false), JString(""), JArray([]), JObject(map[])} || (j.JNumber? && j.n.mantissa == 0)
  {
    match j
    case JNull => false
    case JBool(b) => b
    case JNumber(n) => n.mantissa != 0
    case JString(s) => s != ""
    case JArray(items) => items != []
    case JObject(fields) => fields != map[]
  }

  /** Python's `j[k]` with a string key: raises (None) unless j is an object holding k. */
  function Sub(j: Option<Json>, k: string): Option<Json> {
    if j.Some? && j.value.JObject? && k in j.value.fields then Some(j.value.fields[k]) else None
  }

  /** Python's `j[0]`: raises (None) unless j is a non-empty list. */
  function Head(j: Option<Json>): Option<Json> {
    if j.Some? && j.value.JArray? && j.value.items != [] then Some(j.value.items[0]) else None
  }

  /** Python's `j.get(k, d)` on an object; any other receiver gives d here. */
  function GetOr(j: Option<Json>, k: string, d: Json): Json {
    if j.Some? && j.value.JObject? && k in j.value.fields then j.value.fields[k] else d
  }

  /** One step of a path into a JSON document: an object member or a list element. */
  datatype Step = Member(key: string) | Element(index: nat)

  /** The value reached from j along path, or None if some step does not exist. */
  function At(j: Json, path: seq<Step>): Option<Json>
    decreases |path|
  {
    if path == [] then Some(j)
    else
      match path[0]
      case Member(k) =>
        if j.JObject? && k in j.fields then At(j.fields[k], path[1..]) else None
      case Element(i) =>
        if j.JArray? && i < |j.items| then At(j.items[i], path[1..]) else None
  }
}
