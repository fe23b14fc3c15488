/** Small value types shared by the model: optional values, fallible results and bytes. */
module Values {

  /** A value that may be absent, as Python's `None`. */
  datatype Option<+T> = None | Some(value: T)

  /** The outcome of a call that may raise: the value, or the text of the exception. */
  datatype Result<+T> = Ok(value: T) | Err(message: string)

  newtype byte = x: int | 0 <= x < 256

  /** Raw object contents, as held in an object store or an in-memory buffer. */
  type Bytes = seq<byte>
}
