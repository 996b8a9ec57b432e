/** Optional values and the normal-or-exceptional result of a call, used across the model. */
module Wrappers {

  /** A value that may be absent (Java's `null`). */
  datatype Option<+T> = None | Some(value: T)

  /** The result of a `void` Java call: it returns normally, or it throws `error`. */
  datatype Outcome<+E> = Pass | Fail(error: E)
}
