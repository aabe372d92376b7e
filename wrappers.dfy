/** Option and Result, for lookups that can miss and inputs the dashboard cannot use. */
module Wrappers {

  datatype Option<+T> = None | Some(value: T)

  datatype Result<+T, +E> = Ok(value: T) | Err(error: E)
}
