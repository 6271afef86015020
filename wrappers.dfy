/** Optional values and results with an error, used across the model. */
module Wrappers {

  /** `None` stands for JavaScript `undefined` wherever a lookup may miss. */
  datatype Option<+T> = None | Some(value: T)

  datatype Result<+R, +E> = Success(value: R) | Failure(error: E)
}
