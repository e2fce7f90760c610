/** Failure-carrying values. The program reports every failure by calling
    exit() from deep inside a helper; the model returns one of these instead
    and leaves the mapping to an exit status to the caller. */
module Wrappers {

  /** A value that may be absent. */
  datatype Option<+T> = None | Some(value: T)

  /** A computed value, or the failure that stopped the computation. */
  datatype Result<+T, +E> = Ok(value: T) | Err(error: E)

  /** A step that either passes or stops with a failure, carrying no value. */
  datatype Outcome<+E> = Pass | Fail(error: E)
}
