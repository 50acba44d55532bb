/** Option datatype shared by the decoders and handlers of both core files. */
module Wrappers {

  datatype Option<+T> = None | Some(value: T) {

    /** The value carried by Some, or the given default for None. */
    function GetOr(default: T): T {
      match this
      case Some(v) => v
      case None => default
    }
  }
}
