/** Failure-carrying results and the exceptions the transform engine raises or lets through. */
module Wrappers {

  /** Python's optional value: an attribute that may be absent, an argument left as None. */
  datatype Option<+T> = None | Some(value: T)

  /** The Python exceptions that reach the caller of a transform. */
  datatype Error =
    | ValueError(message: string)
    | KeyError(key: string)
    | AttributeError(name: string)
    | IndexError
    | TypeError(message: string)
    | NotImplemented(member: string)
    | Raised(message: string)  // any other exception raised by a concrete leaf operation

  /** A value or the exception raised while computing it; usable with `:-`. */
  datatype Result<+T> = Success(value: T) | Failure(error: Error) {

    predicate IsFailure() {
      Failure?
    }

    function PropagateFailure<U>(): Result<U>
      requires Failure?
    {
      Failure(error)
    }

    function Extract(): T
      requires Success?
    {
      value
    }
  }
}
