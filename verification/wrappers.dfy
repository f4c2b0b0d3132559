/** Failure-compatible result type shared by the `kbn_conf` and `calmodels`
    models: a Python call either returns a value or raises an exception,
    modelled as `Failure`. */
module Wrappers {

  datatype Result<+T, +E> = Success(value: T) | Failure(error: E) {

    predicate IsFailure() {
      Failure?
    }

    function PropagateFailure<U>(): Result<U, E>
      requires Failure?
    {
      Failure(error)
    }

    function Extract(): T
      requires Success?
    {
      value
    }
  }
}
