/** Option and Result, used for Python's `None` and for the exceptions the source raises. */
module Wrappers {

  datatype Option<+T> = None | Some(value: T) {
    function GetOr(default: T): T {
      match this
      case Some(v) => v
      case None => default
    }
  }

  /** The Python exceptions that the modelled code can raise or catch. */
  datatype PyError =
    | KeyError
    | IndexError
    | TypeError
    | AttributeError
    | RuntimeError
    | PromptFieldTypeError

  datatype Result<+T> = Ok(value: T) | Err(error: PyError)
}
