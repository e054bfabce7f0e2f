/** The optional value used throughout the model: JavaScript's `null` and
    `undefined` are both `None`. */
module Wrappers {

  datatype Option<+T> = None | Some(value: T) {

    /** The value, or `default` when absent (JavaScript's `x ?? default`,
        and `x || default` whenever every present value is truthy). */
    function GetOr(default: T): T
    {
      match this
      case Some(v) => v
      case None => default
    }
  }
}
