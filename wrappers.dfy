/** Failure-carrying results shared by every module: the C++ code reports
    failures with exceptions, which become `Fail`/`Err` values here. */
module Wrappers {

  /** The two exception classes the code throws, with its message text. */
  datatype Error =
    | RuntimeError(message: string)
    | InvalidArgument(message: string)

  datatype Option<+T> = None | Some(value: T)

  /** Outcome of an operation that returns nothing but may throw. */
  datatype Outcome = Pass | Fail(error: Error)

  /** Outcome of an operation that returns a value or throws. */
  datatype Result<+T> = Ok(value: T) | Err(error: Error)
}
