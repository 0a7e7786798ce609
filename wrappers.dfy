/** Failure-carrying results used across the model: an absent value, and a
    value-or-error as thrown or returned by the modelled JavaScript. */
module Wrappers {

  datatype Option<+T> = None | Some(value: T)

  /** A JavaScript call that either returns a value or throws `error`. */
  datatype Result<+T, +E> = Ok(value: T) | Err(error: E)

  /** A JavaScript call that returns nothing or throws `error`. */
  datatype Outcome<+E> = Pass | Fail(error: E)
}
