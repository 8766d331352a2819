/** `validateRequest` (server/src/utils/validateRequest.ts): rejects an empty
    body before the schema runs and turns the first schema issue into a 400
    error. */
module RequestValidation {
  import opened Js
  import opened Zod
  import opened ApiErrors

  /** `null`, `undefined`, or something of type "object" without own keys
      (an empty object or an empty array). */
  predicate IsEmptyBody(data: Json) {
    || data.JNull? || data.JUndefined?
    || (data.JObject? && data.fields == map[])
    || (data.JArray? && data.items == [])
  }

  /** `issues[0]?.message || "Invalid input provided"`. */
  function FirstIssue(messages: seq<string>): (m: string)
    ensures |messages| > 0 && messages[0] != "" ==> m == messages[0]
    ensures |messages| == 0 || messages[0] == "" ==> m == "Invalid input provided"
  {
    if |messages| > 0 && messages[0] != "" then messages[0] else "Invalid input provided"
  }

  /** `validateRequest(schema, data)`: the schema's parsed (transformed) value,
      or a 400 error. */
  function ValidateRequest<T>(schema: Json -> Parsed<T>, data: Json): (r: Result<T, ApiError>)
    ensures IsEmptyBody(data) ==> r == Failure(Fail(400, "All fields are required"))
    ensures !IsEmptyBody(data) ==>
      match schema(data)
      case Parsed(v) => r == Success(v)
      case Issues(ms) => r == Failure(Fail(400, FirstIssue(ms)))
    ensures r.Failure? ==> r.error.statusCode == 400 && r.error.code.None?
  {
    if IsEmptyBody(data) then Failure(Fail(400, "All fields are required"))
    else
      match schema(data)
      case Parsed(v) => Success(v)
      case Issues(ms) => Failure(Fail(400, FirstIssue(ms)))
  }
}
