/** The error values and the failure-carrying wrappers shared by every part of the
    logging facade. */
module Errors {

  /** The two kinds of error a log call can report: the one domain error raised when
      a level has no name, and an opaque error returned by a caller-written Logger. */
  datatype LogError = UndefinedLevel | Foreign(code: nat)

  /** A value or the error that prevented computing it. */
  datatype Result<+T> = Success(value: T) | Failure(error: LogError)

  datatype Option<+T> = None | Some(value: T)
}
