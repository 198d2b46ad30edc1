/** Optional values and library-call outcomes shared by every module. */
module Wrappers {

  /** A value that may be absent; a Go `error` that may be nil is an `Option` of an error. */
  datatype Option<+T> = None | Some(value: T)

  /** What a library call outside the model gives back: a value, or the message of the error it returned. */
  datatype Outcome<+T> = Done(value: T) | Failed(cause: string)
}
