/** Result and option types shared by every module. */
module Wrappers {

  datatype Option<+T> = None | Some(value: T)

  datatype Result<+T, +E> = Success(value: T) | Failure(error: E)

  /** What a read of one API object gives: the object, a definite absence, or some other API error. */
  datatype Lookup<+T> = Found(obj: T) | NotFound | ApiError
}
