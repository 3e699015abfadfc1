/** The optional value used throughout the model: `None` stands for JavaScript's
    `undefined` (an empty array slot, an omitted argument, a missing option). */
module Wrappers {

  datatype Option<+T> = None | Some(value: T) {

    /** Returns the value held in `Some`, or `default` for `None`. */
    function GetOr(default: T): T
    {
      match this
      case Some(v) => v
      case None => default
    }
  }
}
