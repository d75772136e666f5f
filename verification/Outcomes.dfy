/** Optional values and the error returns of the application (include/core/error.hpp). */
module Outcomes {
  datatype Option<+T> = None | Some(value: T)

  /** The codes of `flowdriver::Error` that the modelled code throws. */
  datatype ErrorCode = ZmqError | Timeout | InvalidConfig

  datatype Result<+T> = Ok(value: T) | Err(code: ErrorCode)
}
