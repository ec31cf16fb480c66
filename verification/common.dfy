/** Values shared by every part of the model: Python's None, raised exceptions, raw bytes. */
module Common {

  /** A value that may be Python's `None`. */
  datatype Option<+T> = None | Some(value: T)

  /** The outcome of a Python call that either returns a value or raises. */
  datatype Result<+T, +E> = Ok(value: T) | Err(error: E)

  newtype byte = x: int | 0 <= x < 256

  /** Raw file contents as the remote services return them. */
  type Blob = seq<byte>

  /** Python truthiness of a string that may be None. */
  predicate Truthy(s: Option<string>)
  {
    s.Some? && s.value != []
  }
}
