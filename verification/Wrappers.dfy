/** Values that may be missing and calls that may fail. */
module Wrappers {
  datatype Option<+T> = None | Some(value: T)

  datatype Result<+T, +E> = Ok(value: T) | Err(error: E)
}

/** Who a client is on a multi-user host. */
module Users {
  type Uid = nat
}
