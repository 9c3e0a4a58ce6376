/** The optional value used throughout the model, for SQL NULL and std::optional alike, and
    the decimal numbers. */
module Wrappers {

  datatype Option<+T> = None | Some(value: T) {

    function GetOr(default: T): T {
      match this
      case Some(v) => v
      case None => default
    }
  }

  /** A double, as the decimal text that stands for it. */
  type Decimal = string
}
