/** Small shared datatypes: an optional value (a nullable reference or a
    `Nullable<T>`) and the outcome of code that may throw. */
module Wrappers {

  datatype Option<+T> = None | Some(value: T)

  /** The kinds of .NET exceptions the modelled code throws. */
  datatype ExceptionKind =
    | InvalidOperation(message: string)
    | Argument(message: string)
    | ArgumentNull(paramName: string)
    | ArgumentOutOfRange
    | NullReference
    | SwitchExpression

  /** Either the value the code returns, or the exception it throws. */
  datatype Outcome<+T> = Ok(value: T) | Throw(exception: ExceptionKind)
}
