/** Option and Result values: absence (`null`/`undefined`) and thrown errors in the modelled code. */
module Wrappers {

  datatype Option<+T> = None | Some(value: T)

  datatype Result<+R, +E> = Success(value: R) | Failure(error: E)
}
