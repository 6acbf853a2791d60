/** Values as the TypeScript code sees them at run time: JSON documents, JavaScript
    truthiness, thrown values and the JSON responses of the route handlers. */
module Js {

  datatype Option<+T> = None | Some(value: T)

  datatype Result<+T, +E> = Ok(value: T) | Err(error: E)

  /** A JSON value, as produced by `JSON.parse` / `request.json()`. */
  datatype Json =
    | JNull
    | JBool(b: bool)
    | JNumber(n: real)
    | JString(s: string)
    | JArray(items: seq<Json>)
    | JObject(fields: map<string, Json>)

  /** JavaScript truthiness of a JSON value: null, false, 0 and "" are falsy,
      every array and object (even an empty one) is truthy. */
  predicate TruthyJson(j: Json) {
    match j
    case JNull => false
    case JBool(b) => b
    case JNumber(n) => n != 0.0
    case JString(s) => s != ""
    case JArray(_) => true
    case JObject(_) => true
  }

  /** Truthiness of a property read, where None stands for `undefined`. */
  predicate Truthy(v: Option<Json>) {
    v.Some? && TruthyJson(v.value)
  }

  /** The property access `j.key` on a parsed JSON value: `undefined` (None)
      unless `j` is an object that has the key. */
  function Get(j: Json, key: string): (r: Option<Json>)
    ensures r.Some? <==> j.JObject? && key in j.fields
    ensures r.Some? ==> r.value == j.fields[key]
  {
    if j.JObject? && key in j.fields then Some(j.fields[key]) else None
  }

  /** The string held at `j.key`, or "" when there is none (a missing key or a
      value of another type). */
  function GetString(j: Json, key: string): string {
    match Get(j, key)
    case Some(JString(s)) => s
    case _ => ""
  }

  /** A value caught by a `catch` clause: an `Error` with its message, or
      something that is not an `Error`. */
  datatype Thrown = ErrorThrown(message: string) | OtherThrown

  /** `NextResponse.json(body, { status })`. */
  datatype JsonResponse = JsonResponse(status: int, body: Json)

  /** The body `{ error: message }` that both routes use for a rejection. */
  function ErrorBody(message: string): Json {
    JObject(map["error" := JString(message)])
  }
}
