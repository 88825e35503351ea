/** The optional-value datatype used for parse results, marshalled payloads
    and the error half of Go's `(n int, err error)` returns. */
module Wrappers {

  datatype Option<+T> = None | Some(value: T) {

    /** Returns the value in Some, or the default when None. */
    function GetOr(default: T): T {
      match this
      case Some(v) => v
      case None => default
    }
  }
}
