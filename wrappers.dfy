/** Small failure-carrying datatypes shared by the model. */
module Wrappers {

  /** A value that may be absent: a missed table look-up, an absent JSON field. */
  datatype Option<+T> = None | Some(value: T)

  /** The outcome of one asynchronous call into the television's client library:
      either the promise rejects (timeout, refused connection, bad status) or it
      resolves with a value. */
  datatype Outcome<+T> = Err | Ok(value: T)
}
