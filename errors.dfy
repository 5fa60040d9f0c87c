/**
 * Error values: the SDK's `ApiError` record and the JavaScript values a
 * rejected promise can carry.
 */
module Errors {
  import opened Values

  /**
   * The text of an error message: a literal string, or `String(v)` of a value
   * that is not a string (how JavaScript renders such a value is not modelled).
   */
  datatype Message = Literal(text: string) | Stringified(of: Json)

  /** `String(v)`: a string stays itself, any other value is rendered. */
  function ToJsString(v: Json): Message {
    if v.JString? then Literal(v.s) else Stringified(v)
  }

  /** `ApiError`: raised for every non-2xx response. */
  datatype ApiError = ApiError(
    message: Message,
    status: nat,
    details: Option<Json>,
    httpMethod: Option<string>,
    path: Option<string>)

  /** An instance of `Error`: an `ApiError`, or another error with a name and a message. */
  datatype JsError =
    | Api(api: ApiError)
    | Plain(name: string, message: Message)

  /** The reason a promise is rejected with: an `Error` instance or any other value. */
  datatype Thrown = ThrownError(error: JsError) | ThrownValue(value: Json)
}
