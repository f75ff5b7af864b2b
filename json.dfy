/** The untyped tree a JSON decoder produces: nil, scalars, slices of values
    and maps from string keys to values. Numbers are kept as integers; the
    evaluator never looks inside a scalar. */
module Tree {

  datatype Json =
    | JNull
    | JBool(b: bool)
    | JNum(n: int)
    | JStr(s: string)
    | JArr(elems: seq<Json>)
    | JObj(fields: map<string, Json>)

  /** Go's map index on a map[string]interface{}: the stored value, or the zero
      value nil for a missing key; it never fails. */
  function Lookup(m: map<string, Json>, key: string): Json
  {
    if key in m then m[key] else JNull
  }
}
