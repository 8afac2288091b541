/** The optional value used throughout the model for a nullable column or field. */
module Wrappers {

  datatype Option<+T> = None | Some(value: T) {

    /** The value, or `fallback` when there is none. */
    function GetOr(fallback: T): T {
      match this
      case Some(v) => v
      case None => fallback
    }

    /** The first of the two options that holds a value. */
    function OrElse(other: Option<T>): Option<T> {
      if Some? then this else other
    }
  }
}
