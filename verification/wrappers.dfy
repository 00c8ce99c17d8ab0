/** Optional values and results with an error channel, shared by the configuration
    model and the portfolio analytics. */
module Wrappers {

  /** A value that may be absent: the optional settings of the configuration. */
  datatype Option<+T> = None | Some(value: T)

  /** The outcome of an operation that can fail with an error of type E. */
  datatype Result<+R, +E> = Success(value: R) | Failure(error: E)
}
