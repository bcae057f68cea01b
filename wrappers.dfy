/** Optional values and error results, used wherever the Python or
    JavaScript code returns None/null or raises an exception. */
module Wrappers {

  datatype Option<+T> = None | Some(value: T) {
    function GetOr(default: T): T {
      match this
      case Some(v) => v
      case None => default
    }
  }

  /** The exceptions the modelled code can raise (or return as an error
      string), named after the Python exception class. */
  datatype Error =
    | IndexError
    | KeyError
    | ValueError(msg: string)
    | AssertionError
    | ZeroDivisionError
    | UnboundLocalError(name: string)
    | ArgumentTypeError(msg: string)
    | TypeError
    | AttributeError
    | Raised(msg: string)  // raised by code outside the model: a simulator, a browser

  datatype Result<+T> = Ok(value: T) | Err(error: Error)
}
