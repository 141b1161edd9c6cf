/** Option and Result wrappers used across the storefront model. */
module Wrappers {

  /** A value that may be missing: an unparsable query parameter, an order
      that the store did not find. */
  datatype Option<+T> = None | Some(value: T)

  /** The outcome of a request step that can fail with an error value. */
  datatype Result<+R, +E> = Success(value: R) | Failure(error: E)
}
