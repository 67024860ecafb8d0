/** The two result shapes the kernel uses: a missing pointer and a fallible call. */
module Wrappers {
  datatype Option<+T> = None | Some(value: T)

  datatype Result<+T, +E> = Ok(value: T) | Err(error: E)
}
