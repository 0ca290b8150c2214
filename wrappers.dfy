/** The optional value used throughout the model: `None` stands for a JavaScript
    `null` and, for the result of `parseInt`/`parseFloat`, for `NaN`. */
module Wrappers {

  datatype Option<+T> = None | Some(value: T) {

    /** Returns the value inside `Some`, or `default` for `None`. */
    function GetOr(default: T): T {
      match this
      case Some(v) => v
      case None => default
    }
  }
}
