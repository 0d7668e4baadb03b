/**
 * The decoded JSON values a request body can carry, as Python's `json` module
 * produces them: a number without fraction or exponent is an `int`, any other
 * number a `float`, an array a `list` and an object a `dict`.
 */
module JsonValue {

  datatype Json =
    | JNull
    | JBool(b: bool)
    | JInt(i: int)
    | JFloat(r: real)
    | JString(s: string)
    | JArray(elems: seq<Json>)
    | JObject(fields: map<string, Json>)
}
