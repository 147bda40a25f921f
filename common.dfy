/** Small failure-compatible wrapper shared by every module of the model. */
module Common {

  /** A value that may be absent: an optional document field, a missing document. */
  datatype Option<T> = None | Some(value: T) {

    /** The value, or `default` when absent (the `??` operator of the source). */
    function GetOr(default: T): T {
      match this
      case Some(v) => v
      case None => default
    }
  }

  function Max(a: int, b: int): int {
    if a >= b then a else b
  }
}
