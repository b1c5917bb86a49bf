/** Python's exceptions as values.
    The simulator signals every failure by raising; here each operation that
    can raise returns a `Result`, and the exception it would raise is its
    error value. */
module Exceptions {

  /** The first argument an exception is raised with (`e.args[0]`):
      either one string or a sequence of strings (the rejected tuple). */
  datatype ErrorArg = Str(text: string) | StrList(items: seq<string>)

  /** The exception kinds the simulator raises or distinguishes. */
  datatype Exception =
    | ValueError(arg: ErrorArg)
    | ArgumentTypeError(arg: ErrorArg)   // argparse.ArgumentTypeError, not a ValueError
    | OtherError(arg: ErrorArg)          // any other exception a component may raise

  datatype Result<+T> = Success(value: T) | Failure(error: Exception)

  datatype Option<+T> = None | Some(value: T)
}
