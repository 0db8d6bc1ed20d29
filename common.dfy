/** Shared value types: optional values, results with an error, raw bytes. */
module Common {

  /** A Go pointer that may be nil, or a lookup that may miss. */
  datatype Option<+T> = None | Some(value: T)

  /** A Go `(value, error)` pair where exactly one side is meaningful. */
  datatype Result<+T, +E> = Ok(value: T) | Err(error: E)

  /** Go's `[]byte`; a nil slice is the empty sequence. */
  type Bytes = seq<bv8>
}
