/** Small value wrappers shared by every module of the model. */
module Wrappers {

  /** A value that may be missing: a TypeScript optional field, `null` or `undefined`. */
  datatype Option<+T> = None | Some(value: T)

  /** Either a value or an error description. */
  datatype Result<+T, +E> = Success(value: T) | Failure(error: E)

  /** The outcome of an HTTP request made with axios: the response body, or a thrown error. */
  datatype Response<+T> = Ok(data: T) | Failed

  /** JavaScript truthiness of a `string | null` value: `null` and `""` are falsy. */
  predicate IsTruthy(s: Option<string>)
  {
    s.Some? && s.value != ""
  }
}
