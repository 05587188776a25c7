/** Option and Result, the two failure-carrying shapes the model needs:
    `Option` stands for a Python value that may be `None` (or a dict key that
    may be absent), `Result` for a call that either returns or raises. */
module Wrappers {

  datatype Option<+T> = None | Some(value: T) {

    /** The encapsulated value, or `default` when there is none
        (Python's `d.get(key, default)`). */
    function GetOr(default: T): T {
      match this
      case Some(v) => v
      case None => default
    }
  }

  datatype Result<+R, +E> = Ok(value: R) | Err(error: E)
}
