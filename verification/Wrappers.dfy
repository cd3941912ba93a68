/** Optional values and outcomes shared by every part of the model. */
module Wrappers {

  datatype Option<+T> = None | Some(value: T)

  /** What a step that may throw gives its caller. */
  datatype Result<+T> = Success(value: T) | Failure(error: string)
}
