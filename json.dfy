/**
  The generic value produced by a one-pass structural JSON parse, the model of
  Go's `interface{}` after `json.Unmarshal` (numbers are `float64`, modelled as
  `real`; objects are `map[string]interface{}`).
 */
module JsonValues {

  datatype Json =
    | JNull
    | JBool(b: bool)
    | JNum(n: real)
    | JStr(s: string)
    | JArr(items: seq<Json>)
    | JObj(fields: map<string, Json>)

  /** A lookup in a decoded Go map: an absent key and an explicit null both read as nil. */
  function Get(fields: map<string, Json>, key: string): Json {
    if key in fields then fields[key] else JNull
  }
}
