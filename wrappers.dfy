/** Option and Result, the two failure-carrying datatypes the model uses
    for optional arguments and for the exceptions the source raises. */
module Wrappers {

  datatype Option<+T> = None | Some(value: T)

  datatype Result<+R, +E> = Ok(value: R) | Err(error: E)
}
