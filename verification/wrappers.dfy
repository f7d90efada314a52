/** Optional values and results, for the source's `undefined` values and thrown errors. */
module Wrappers {

  datatype Option<+T> = None | Some(value: T)

  /** `Failure` stands for an error the source throws (its message), `Success` for a normal return. */
  datatype Result<+R, +E> = Success(value: R) | Failure(error: E)
}
