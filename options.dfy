/** Optional values and results, standing in for Python's `None` and raised exceptions. */
module Options {

  /** Python's `Optional[T]`: `None` or a value. */
  datatype Option<+T> = None | Some(value: T) {
    /** `value if value is not None else default` */
    function GetOr(default: T): T {
      match this
      case Some(v) => v
      case None => default
    }
  }

  /** The value of an operation that either returns normally or raises `error`. */
  datatype Result<+T, +E> = Ok(value: T) | Err(error: E)

  /** Python truthiness of an optional number: `None` and `0.0` are both false. */
  predicate Truthy(x: Option<real>) {
    x.Some? && x.value != 0.0
  }

  /** Python truthiness of an optional string: `None` and `""` are both false. */
  predicate TruthyText(x: Option<string>) {
    x.Some? && x.value != ""
  }

  /** Python's `x or 0` on an optional number. */
  function OrZero(x: Option<real>): (r: real)
    ensures Truthy(x) ==> r == x.value
    ensures !Truthy(x) ==> r == 0.0
  {
    if x.Some? then x.value else 0.0
  }
}
