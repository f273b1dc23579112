/** Failure-carrying values shared by the other modules. */
module Wrappers {

  datatype Option<+T> = None | Some(value: T)

  /** The outcome of an operation that either completes or stops with the
      message of the exception the client would throw. */
  datatype Outcome = Pass | Fail(error: string)
}
