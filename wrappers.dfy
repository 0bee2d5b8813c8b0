/** The failure-carrying shapes the model needs: Rust's `Option` and `Result`, and panics. */
module Wrappers {
  datatype Option<+T> = None | Some(value: T)

  /** A Rust `Result<R, E>`. */
  datatype Result<+R, +E> = Success(value: R) | Failure(error: E)

  /** Why a call panics instead of returning. */
  datatype Panic =
    | ArithmeticOverflow   // `attempt to add/subtract with overflow` in a debug build
    | IndexOutOfBounds     // indexing a `Vec` past its end
    | UnwrapNone           // `Option::unwrap` on `None`
    | NotImplemented       // `todo!()`

  /** How a Rust call ends: it returns a value, or it panics. */
  datatype Outcome<+T> = Returned(value: T) | Panicked(reason: Panic)
}
