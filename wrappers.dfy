/** Failure-carrying wrappers shared by the model: a nullable value, a result
    that is a value or an error, and a pass/fail outcome for checks that
    return nothing. */
module Wrappers {

  /** `None` stands for a Java `null`. */
  datatype Option<+T> = None | Some(value: T)

  /** A computation that returns `value` or throws `error`. */
  datatype Result<+R, +E> = Success(value: R) | Failure(error: E)

  /** A `void` computation that returns normally or throws `error`. */
  datatype Outcome<+E> = Pass | Fail(error: E)
}
