/** Outcomes of the calls the app makes into code this model does not contain:
    the REST backend, the push client and the device storage. */
module Wrappers {

  datatype Option<+T> = None | Some(value: T)

  /** What a rejected call carries: the HTTP status and the server's `message`
      when there was a response, and the error's own `message`. */
  datatype Error = Error(status: Option<int>, serverMessage: Option<string>, message: string)

  /** The settled value of an awaited call. */
  datatype Outcome<+T> = Ok(value: T) | Fail(error: Error)

  /** How an async operation of the app ends for its caller. */
  datatype Completion = Returned | Threw(error: Error)
}
