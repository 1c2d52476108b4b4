/** The optional value and the success-or-exception result shared by the
    other modules. */
module Wrappers {
  datatype Option<T> = None | Some(value: T)

  /** A Python call either returns a value or raises an exception. */
  datatype Result<T, E> = Ok(value: T) | Err(error: E)
}
