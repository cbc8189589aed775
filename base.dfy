/** Wrapper datatypes shared by the whole model, and the rule, used on both the
    server and the client, that a missing number counts as zero. */
module Base {

  /** A value that may be absent: Java's `null`, JavaScript's `null`/`undefined`. */
  datatype Option<+T> = None | Some(value: T) {
    function GetOr(default: T): T {
      match this
      case Some(v) => v
      case None => default
    }
  }

  /** The outcome of an operation that can throw. */
  datatype Result<+T, +E> = Ok(value: T) | Err(error: E)

  /** Java's `x != null ? x : 0.0` and JavaScript's `parseFloat(x) || 0` / `x || 0`
      on a number field: a missing (or unparsable) value counts as 0. */
  function OrZero(x: Option<int>): (r: int)
    ensures x.None? ==> r == 0
    ensures x.Some? ==> r == x.value
  {
    x.GetOr(0)
  }
}
