/** Optional values, and results that either carry a value or name the .NET
    exception the original code throws at that point. */
module Wrappers {

  datatype Option<+T> = None | Some(value: T)

  /** The exception kinds the templating engine raises, with their messages. */
  datatype Error =
    | IndexOutOfRange(message: string)
    | Argument(message: string)
    | Format(message: string)
    | NotSupported(message: string)

  datatype Result<+T> = Success(value: T) | Failure(error: Error)
}
