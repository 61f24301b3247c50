/** Values that may be absent, and outcomes that may be an error. */
module Options {

  /** A JavaScript value that may be `undefined`/`null` (None) or present (Some). */
  datatype Option<+T> = None | Some(value: T)

  /** The outcome of an async API helper: the resolved value, or the `message`
      of the `Error` it throws. */
  datatype Result<+T> = Ok(value: T) | Err(message: string)
}
