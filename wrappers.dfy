/** Java's Optional (and a nullable reference) as a value. */
module Wrappers {

  datatype Option<+T> = None | Some(value: T) {

    /** Optional.orElse: the carried value, or the fallback when empty. */
    function OrElse(fallback: T): T {
      match this
      case Some(v) => v
      case None => fallback
    }
  }
}
