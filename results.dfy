/**
 * How a step of a controller pipeline ends: with a value, or with the error
 * it hands to its callback (or throws).
 */
module Results {
  import opened JsValues

  datatype Option<T> = None | Some(value: T)

  datatype Failure =
    | HttpError(status: nat, message: string)   // an HttpError(status, message) object
    | Error(name: string, message: string)      // a thrown exception of the named class
    | Rejection(error: Value)                   // any other truthy value passed as the error

  /** `callback(null, value)` or `callback(error)`. */
  datatype Result<T> = Ok(value: T) | Err(failure: Failure)

  /** `callback(null)` or `callback(error)`, for steps that produce no value. */
  datatype Outcome = Pass | Fail(failure: Failure)

  /** What `res.status(status).json(body)` sends. */
  datatype Reply = Reply(status: nat, body: Value)
}
