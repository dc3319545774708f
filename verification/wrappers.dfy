/** The two wrappers the model uses in place of Python's conventions:
    `Option` stands for a value that may be `None`, and `Result` for a call
    that either returns or raises. */
module Wrappers {

  datatype Option<+T> = None | Some(value: T) {

    /** The carried value, falling back to `default` for `None`. */
    function GetOr(default: T): T {
      if Some? then value else default
    }
  }

  /** `Success` is a normal return; `Failure` carries the raised exception. */
  datatype Result<+R, +E> = Success(value: R) | Failure(error: E)
}
