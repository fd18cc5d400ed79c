/** Values that may be absent and computations that may fail with a reason. */
module Wrappers {

  /** A value that may be missing, such as an unpopulated reference or an
      omitted request field. */
  datatype Option<+T> = None | Some(value: T)

  /** Either a computed value or the reason the computation was refused. */
  datatype Result<+T, +E> = Ok(value: T) | Err(error: E)
}
