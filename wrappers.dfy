/** Option and Result values used for Python's None and for raised exceptions. */
module Wrappers {

  datatype Option<+T> = None | Some(value: T) {
    function GetOr(default: T): T {
      match this
      case Some(v) => v
      case None => default
    }
  }

  /** A computation that either produced a value or raised one of a few exception kinds. */
  datatype Result<+T> = Ok(value: T) | Err(error: Failure)

  /** The exceptions the modelled code raises or exits with. */
  datatype Failure =
    | ValueError(msg: string)      // Python ValueError (bad argument, wrong format)
    | BadParameter(msg: string)    // click.BadParameter
    | TypeError(msg: string)       // formatting None with a width, a non-string path
    | AttributeError(msg: string)  // a method called on a value of the wrong type
    | OSError(msg: string)         // a filesystem call that failed
    | KeyError(msg: string)        // a missing key or index of a mapping
    | IndexError(msg: string)      // an index past the end of a list
    | Exit(msg: string)            // sys.exit after an error was logged
}
