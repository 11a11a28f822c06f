/** Optional values and pass/fail outcomes, standing for the source's
    `T | null`, `T | undefined` and thrown errors. */
module Wrappers {

  datatype Option<+T> = None | Some(value: T)

  /** The outcome of an operation that either completes or throws an error
      carrying a message. */
  datatype Outcome<+E> = Pass | Fail(error: E)
}
