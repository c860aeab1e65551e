/** Option and Result, the two failure-carrying shapes the documentation layer returns. */
module Wrappers {

  /** An optional value, Rust's `Option`. */
  datatype Option<+T> = None | Some(value: T)

  /** A value or an error, Rust's `Result`; errors are kept as plain messages. */
  datatype Result<+R, +E> = Success(value: R) | Failure(error: E) {

    /** Drops the error, as `Result::ok` does. */
    function ToOption(): (o: Option<R>)
      ensures o.Some? <==> Success?
      ensures o.Some? ==> o.value == value
    {
      match this
      case Success(v) => Some(v)
      case Failure(_) => None
    }
  }
}
