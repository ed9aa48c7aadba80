/** Option and Result, the two wrappers every other module uses for "maybe absent" and "value or error". */
module Common {

  datatype Option<+T> = None | Some(value: T)

  datatype Result<+T, +E> = Success(value: T) | Failure(error: E)
}
