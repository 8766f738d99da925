/** The exceptions the backend can raise, and the result shapes that carry them. */
module Exceptions {

  /** The failures the backend and the dictionary helpers can report. */
  datatype Error =
    /** An enrolment or configuration the backend refuses, with its message. */
    | BadProperty(msg: string)
    /** A dictionary entry whose value has the wrong type for its key. */
    | TypeMismatch(key: string)
    /** The bare rethrow in `write` for a device that is not a spike detector. */
    | BareRethrow

  /** A value, or the exception that was raised instead. */
  datatype Result<T> = Success(value: T) | Failure(error: Error)

  /** The outcome of an operation that returns nothing: it passed or it raised. */
  datatype Outcome = Pass | Fail(error: Error)
}
