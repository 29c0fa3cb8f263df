/** Small shared vocabulary: bytes, optional values, the outcome of an
    operation that may abort the process, and Go `error` values. */
module Common {

  /** A Go `byte`. */
  type byte = b: int | 0 <= b < 256

  datatype Option<+T> = None | Some(value: T)

  /** The outcome of an operation that either returns normally or panics
      (aborts the process with a diagnostic message). */
  datatype Outcome<+T> = Normal(value: T) | Abort(message: string)

  /** An opaque Go `error` value; only its identity matters here. */
  datatype Error = Error(message: string)
}
