/** Rust's `Option`, `Result` and `std::task::Poll`, as plain datatypes. */
module Wrappers {

  datatype Option<+T> = None | Some(value: T) {
    function GetOr(default: T): T {
      match this
      case Some(v) => v
      case None => default
    }
  }

  datatype Result<+T, +E> = Ok(value: T) | Err(error: E) {
    /** `Result::ok`: forgets the error. */
    function ToOption(): Option<T> {
      match this
      case Ok(v) => Some(v)
      case Err(_) => None
    }
  }

  /** The outcome of polling a future or a body once. */
  datatype Poll<+T> = Pending | Ready(value: T)

  /** The unit value `()`. */
  datatype Unit = Unit
}
