/** Option and Result, shared by every module of the model. */
module Wrappers {

  datatype Option<+T> = None | Some(value: T)

  /** Why a peer-connection operation was rejected. */
  datatype Failure = InvalidState | InvalidDescription | InvalidCandidate

  /** The outcome of an operation the browser's peer connection may reject. */
  datatype Result<+T> = Ok(value: T) | Err(reason: Failure)
}
