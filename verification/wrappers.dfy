/** Failure-compatible result types shared by the whole model.

  Go signals outcomes with `(value, error)` pairs and nil pointers; here
  - `Option<T>` stands for a possibly-nil pointer (`None` is nil), and
  - `Result<T, E>` stands for a `(value, error)` pair, `Failure` carrying the
    error text that `err.Error()` would print.
  Both work with Dafny's `:-` operator, which gives the early `return nil, err`
  of the Go code.
 */
module Wrappers {

  datatype Option<+T> = None | Some(value: T) {

    predicate IsFailure() {
      None?
    }

    function PropagateFailure<U>(): Option<U>
      requires None?
    {
      None
    }

    function Extract(): T
      requires Some?
    {
      value
    }
  }

  datatype Result<+T, +E> = Success(value: T) | Failure(error: E) {

    predicate IsFailure() {
      Failure?
    }

    function PropagateFailure<U>(): Result<U, E>
      requires Failure?
    {
      Failure(error)
    }

    function Extract(): T
      requires Success?
    {
      value
    }
  }
}
