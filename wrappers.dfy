/** Small value types shared by every module of the model. */
module Wrappers {

  datatype Option<T> = None | Some(value: T)

  /** Rust's `Result`: a value, or the error that replaced it. */
  datatype Result<T, E> = Success(value: T) | Failure(error: E)

  /** The outcome of polling a future once: not finished yet, or finished with a value. */
  datatype Poll<T> = Pending | Ready(value: T)
}
