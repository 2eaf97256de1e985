/** Optional values and fallible results, in the shape of Rust's `Option<T>`
    and `Result<T, E>`. Both support Dafny's `:-` operator, which plays the
    part of Rust's `?`: a failure stops the enclosing expression and is
    returned as it is. */
module Wrappers {

  /** A value that may be absent, as Rust's `Option<T>`. */
  datatype Option<+T> = None | Some(value: T) {

    /** An absent value stops a `:-` chain. */
    predicate IsFailure() {
      None?
    }

    /** Absence carried over to an option of another type. */
    function PropagateFailure<U>(): Option<U>
      requires None?
    {
      None
    }

    /** The present value, handed on by `:-`. */
    function Extract(): T
      requires Some?
    {
      value
    }
  }

  /** The outcome of a fallible step, as Rust's `Result<T, E>`. */
  datatype Result<+R, +E> = Success(value: R) | Failure(error: E) {

    /** An error stops a `:-` chain, as `?` does in Rust. */
    predicate IsFailure() {
      Failure?
    }

    /** The same error, as a result of another value type. */
    function PropagateFailure<U>(): Result<U, E>
      requires Failure?
    {
      Failure(error)
    }

    /** The success value, handed on by `:-`. */
    function Extract(): R
      requires Success?
    {
      value
    }
  }
}
