/** Optional values, results and the exceptions the backup program raises or lets through. */
module Errors {

  datatype Option<+T> = None | Some(value: T)

  /** The exceptions of the program, by kind. */
  datatype Error =
    | TokenNotSet              // raised by the client before an authenticated call without a token
    | HttpError(status: int)   // raised by raise_for_status on a 4xx or 5xx reply
    | KeyError(key: string)    // subscript of a missing object member or cookie
    | IndexError               // [0] on an empty list
    | TypeError                // subscript or iteration of a value that does not support it
    | AttributeError           // .keys() or .items() on a value that is not an object
    | SpaceNotInList           // the selected workspace id is not among the enumerated ones

  datatype Result<+T> = Success(value: T) | Failure(error: Error)

  /** The outcome of a run that polls the remote service: it may still be waiting when the
      scripted replies of the remote side run out (the program itself would keep polling). */
  datatype Outcome<+T> = Done(value: T) | Raised(error: Error) | Pending
}
