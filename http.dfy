/** The JSON responses the route handlers send back: a status code and a body. */
module Http {

  /** A parsed JSON value, as `JSON.parse` returns it. Numbers are integers in this model. */
  datatype JsonValue =
    | JNull
    | JBool(b: bool)
    | JNumber(n: int)
    | JString(s: string)
    | JArray(items: seq<JsonValue>)
    | JObject(fields: seq<(string, JsonValue)>)

  /** The JSON bodies sent by the routes. */
  datatype Body =
    | Empty                       // `{}`
    | ErrorBody(error: string)    // `{ error: ... }`
    | MessageBody(message: string) // `{ message: ... }`
    | MealPlanBody(mealPlan: JsonValue) // `{ mealPlan: ... }`

  /** `NextResponse.json(body, { status })`; the status defaults to 200. */
  datatype Response = Response(status: int, body: Body)
}
