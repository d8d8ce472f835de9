/** The optional value used for the handlers a caller may leave out of a StateProps record. */
module Wrappers {

  datatype Option<+T> = None | Some(value: T) {

    /** The supplied value, or `default` when nothing was supplied. */
    function GetOr(default: T): T
    {
      match this
      case Some(v) => v
      case None => default
    }
  }
}
