/** Small shared vocabulary: optional values (PHP's `null`) and integer minimum. */
module Base {

  /** A value that may be absent: the model of a PHP `null` or a missing array key. */
  datatype Option<+T> = None | Some(value: T) {

    /** The value, or `default` when absent: PHP's `$x ?? $default`. */
    function GetOr(default: T): T {
      match this
      case Some(v) => v
      case None => default
    }
  }

  function Min(a: int, b: int): int {
    if a <= b then a else b
  }
}
