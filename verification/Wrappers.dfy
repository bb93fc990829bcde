/** Result types shared by the whole project. */
module Wrappers {

  datatype Option<+T> = None | Some(value: T)

  /** A Go `(value, error)` pair, or a Python return-or-raise. Only the fact that an
      operation failed is kept; the text of the error is not. */
  datatype Result<+T> = Ok(value: T) | Err

  /** The exceptions that the planner tells apart. */
  datatype Error = SourceTreeError | SourceManagerError | CommandError | AssertionFailed | BuilderError
                 | PlanError | FileError | DockerError

  datatype Outcome<+T> = Return(value: T) | Raise(error: Error)
}
