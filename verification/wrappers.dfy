/** Option and Result, the two failure-carrying shapes the model uses:
    Option stands for a Python value that may be `None`, Result for a
    computation that may raise instead of returning. */
module Wrappers {

  datatype Option<+T> = None | Some(value: T) {

    /** The encapsulated value, or `default` for None (Python's `x or d`
        idiom on a present/absent field). */
    function GetOr(default: T): T {
      match this
      case Some(v) => v
      case None => default
    }
  }

  datatype Result<+R, +E> = Success(value: R) | Failure(error: E)
}
