/** Option and Result values standing in for JavaScript's null/undefined and Rust's Result. */
module Wrappers {

  datatype Option<+T> = None | Some(value: T)

  /** A Rust `Result<T, String>`: either a value or an error message. */
  datatype Result<+T> = Success(value: T) | Failure(error: string)
}
