/** Optional values, and results of operations whose checks may fail. */
module Options {

  datatype Option<+T> = None | Some(value: T)

  datatype Result<+T> = Success(value: T) | CheckFailed
}
