/** Wrappers: an optional value (Java's nullable reference)
    and a result that is either a value or an error (Java's checked exception). */
module Wrappers {

  datatype Option<+T> = None | Some(value: T)

  datatype Result<+T, +E> = Ok(value: T) | Err(error: E)
}
