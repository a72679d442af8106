/** Optional values and outcomes that stand for Python's `None` and raised exceptions. */
module Base {

  datatype Option<+T> = None | Some(value: T)

  datatype Result<+R, +E> = Success(value: R) | Failure(error: E)
}
