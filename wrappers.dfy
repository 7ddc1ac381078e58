/** Outcome types shared by the model. */
module Wrappers {

  datatype Option<T> = None | Some(value: T)

  /** The three ways a Go call in this program can end: a value, a returned
      `error` (carrying its message), or a runtime panic that unwinds the
      whole request (an index out of range, say). */
  datatype Result<T> = Ok(value: T) | Err(error: string) | Panic
}
