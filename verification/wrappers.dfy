/** Failure-carrying values shared by the cart modules. */
module Wrappers {

  /** An optional value: the result of a lookup that may find nothing. */
  datatype Option<+T> = None | Some(value: T)

  /** Either a computed value or the error that prevented it. */
  datatype Result<+T, +E> = Ok(value: T) | Err(error: E)
}
