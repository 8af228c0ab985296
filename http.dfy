/**
 * What a route handler sends back: a status code together with either the
 * JSON document it serialises or the `message` of an error body.
 */
module Http {

  datatype Response<+T> =
    | Success(status: int, value: T)
    | Failure(status: int, message: string)

  /** The body every handler's `catch` block sends: `{ message: 'Server error', ... }`. */
  function ServerError<T>(): (r: Response<T>)
    ensures r.Failure? && r.status == 500
  {
    Failure(500, "Server error")
  }
}
