/** Option and result types shared by the model. */
module Wrappers {

  /** Python's optional value: `None` or a present value. */
  datatype Option<+T> = None | Some(value: T)

  /** The outcome of an operation that may raise. Every exception the
      component wraps into a NetworkSecurityException is the one `Failure`. */
  datatype Result<+T> = Success(value: T) | Failure
}
