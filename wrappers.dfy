/** The optional value used wherever the source has `T | null` or an omitted argument. */
module Wrappers {

  datatype Option<+T> = None | Some(value: T) {

    /** The value, or `default` when there is none: the value an omitted argument keeps once overrides are merged. */
    function GetOr(default: T): T {
      match this
      case Some(v) => v
      case None => default
    }

    /** This value when there is one, else `other`: an omitted filter keeps its earlier value. */
    function OrElse(other: Option<T>): Option<T> {
      if Some? then this else other
    }
  }
}
