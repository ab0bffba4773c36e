/** Optional values and pass/fail outcomes shared by the other modules. */
module Wrappers {

  /** A value that may be absent. */
  datatype Option<+T> = None | Some(value: T)

  /** The outcome of an awaited step that yields no value: it either
      completes or rejects with an error. */
  datatype Outcome<+E> = Pass | Fail(error: E)
}
