/**
 * Result types shared by the model.
 *
 * Java `null` becomes `Option`, javaslang's `Either<String, T>` becomes `Either<T>` (the left side
 * always carries a message), and a Java exception that escapes a call becomes `Thrown` of a `Try`.
 */
module Wrappers {

  datatype Option<T> = None | Some(value: T)
  {
    function GetOr(default: T): T
    {
      match this
      case None => default
      case Some(v) => v
    }
  }

  /** javaslang `Either<String, T>`: `Left(message)` or `Right(value)`. */
  datatype Either<T> = Left(msg: string) | Right(value: T)

  /**
   * The kinds of Java exception that the modelled code throws or lets escape. `GitFailure` is an
   * exception raised inside JGit (a transport error, say) that escapes unchanged.
   */
  datatype Exception =
    | IllegalArgument(message: string)
    | IllegalState(message: string)
    | NullDereference
    | BranchAlreadyExists(branchName: string)
    | GitFailure(message: string)
    | IndexOutOfBounds

  /** The outcome of a Java call that may throw: a returned value or an escaping exception. */
  datatype Try<T> = Ok(value: T) | Thrown(ex: Exception)
}
