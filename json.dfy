/**
 * Decoded JSON values as the client sees them (the result of `r.json()` and
 * the bodies it sends), and Python's truthiness of such a value.
 */
module Json {
  import opened Wrappers

  /** An exact decimal number: `mantissa * 10^-exponent`. */
  datatype Decimal = Decimal(mantissa: int, exponent: nat)

  const Zero: Decimal := Decimal(0, 0)

  datatype Json =
    | JNull
    | JBool(b: bool)
    | JNum(n: Decimal)
    | JStr(s: string)
    | JArr(items: seq<Json>)
    | JObj(fields: map<string, Json>)

  /** A Python `int` as a JSON number. */
  function Int(i: int): Json
  {
    JNum(Decimal(i, 0))
  }

  /** A value read with `dict.get`: a missing key becomes `null`. */
  function OptStr(o: Option<string>): Json
  {
    match o
    case None => JNull
    case Some(s) => JStr(s)
  }

  /** Python's `bool(v)` for a decoded JSON value. */
  predicate Truthy(j: Json)
  {
    match j
    case JNull => false
    case JBool(b) => b
    case JNum(d) => d.mantissa != 0
    case JStr(s) => s != ""
    case JArr(a) => a != []
    case JObj(m) => m != map[]
  }

  /** A one-entry object `{key: value}`. */
  function Single(key: string, value: Json): (j: Json)
    ensures j.JObj? && j.fields.Keys == {key} && j.fields[key] == value
    ensures Truthy(j)
  {
    JObj(map[key := value])
  }
}
