/** The failure modes of the game, and the Option/Result wrappers used to
    return them instead of throwing. */
module Outcomes {

  /** The exception kinds the game raises: ArgumentException for a bad
      solution or a malformed guess, InvalidOperationException for a guess
      on a finished game. */
  datatype Error = InvalidArgument | InvalidOperation

  datatype Option<+T> = None | Some(value: T)

  datatype Result<+T> = Success(value: T) | Failure(error: Error)
}
