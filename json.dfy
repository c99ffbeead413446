/**
 * The values `JSON.parse` produces and `parseValue` returns (the JSON value
 * type of the database layer), and the two foreign parsers the CSV helpers
 * call, kept abstract as function-typed parameters.
 */
module Json {
  import opened Wrappers

  /** A JavaScript number; floating point is abstracted as a real. */
  type Num = real

  datatype JsonVal =
    | JNull
    | JBool(b: bool)
    | JNumber(n: Num)
    | JString(s: string)
    | JArray(items: seq<JsonVal>)
    | JObject(fields: map<string, JsonVal>)

  /** `JSON.parse`: `None` where it throws a SyntaxError. */
  type JsonParser = string -> Option<JsonVal>

  /** `Number(value)` together with `isNaN`: `None` where the number is NaN. */
  type NumberParser = string -> Option<Num>
}
