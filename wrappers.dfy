/** Optional values and success-or-failure results, used for the nullable
    fields of the application state and for calls that can throw. */
module Wrappers {

  datatype Option<+T> = None | Some(value: T)

  /** The outcome of a call that either returns a value or throws an error
      carrying a message. */
  datatype Result<+R, +E> = Ok(value: R) | Err(error: E)
}
