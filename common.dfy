/** Errors raised by the simulator and the plotting helpers, and the
    result types that carry them instead of Python exceptions. */
module Common {

  /** The exceptions the modelled code raises. */
  datatype Error =
    | SolverFailed        // run: the integrator reported a non-zero status
    | ShapeMismatch       // run: the samples do not fill the 12 named trajectory columns
    | DataFrameNotFound   // compute_distance / compute_angles on an empty trajectory table
    | ZeroDivision        // column_average on a table with no columns (0 / 0)

  /** Outcome of an operation that returns nothing but may raise. */
  datatype Outcome = Pass | Fail(error: Error)

  /** Outcome of an operation that returns a value or raises. */
  datatype Result<T> = Success(value: T) | Failure(error: Error)
}
