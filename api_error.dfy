/** The error record every handler throws (server/src/utils/ApiError.ts). The
    class assigns each field once in its constructor and nothing changes it
    afterwards, so it is a value here. The `data` field is always `null` and
    the stack trace is not modelled. */
module ApiErrors {
  import opened Js

  datatype ApiError = ApiError(
    statusCode: int,
    message: string,
    success: bool,
    errors: seq<string>,
    code: Option<string>)

  /** `new ApiError(statusCode, message?, errors?, code?)`. An argument that is
      not passed is `None`. Defaults apply only to arguments that are not
      passed, while `code` is recorded only when it is truthy. */
  function NewApiError(statusCode: int, message: Option<string>, errors: Option<seq<string>>, code: Option<string>): (e: ApiError)
    ensures e.statusCode == statusCode
    ensures !e.success
    ensures message.None? ==> e.message == "Something went wrong"
    ensures message.Some? ==> e.message == message.value
    ensures errors.None? ==> e.errors == []
    ensures errors.Some? ==> e.errors == errors.value
    ensures e.code.Some? <==> Truthy(code)
    ensures e.code.Some? ==> e.code == code
  {
    ApiError(
      statusCode,
      if message.Some? then message.value else "Something went wrong",
      false,
      if errors.Some? then errors.value else [],
      if Truthy(code) then code else None)
  }

  /** `new ApiError(statusCode, message)`, the form most handlers use. */
  function Fail(statusCode: int, message: string): (e: ApiError)
    ensures e == NewApiError(statusCode, Some(message), None, None)
    ensures e.code.None? && e.errors == []
  {
    NewApiError(statusCode, Some(message), None, None)
  }

  /** Passing the empty string as `code` is the same as passing none: an empty
      code is never recorded. */
  lemma EmptyCodeIsNoCode(statusCode: int, message: Option<string>, errors: Option<seq<string>>)
    ensures NewApiError(statusCode, message, errors, Some("")) == NewApiError(statusCode, message, errors, None)
  {
  }
}
