/** Optional values and results with an error path, shared by every module. */
module Options {

  datatype Option<+T> = None | Some(value: T)

  datatype Result<+R, +E> = Success(value: R) | Failure(error: E)
}
