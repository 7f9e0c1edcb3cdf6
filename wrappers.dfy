/** Optional values and results with the failure cases the services raise. */
module Wrappers {

  datatype Option<T> = None | Some(value: T)
  {
    /** The value, or `default` when absent (Java's `x != null ? x : default`). */
    function GetOr(default: T): T
    {
      match this
      case None => default
      case Some(v) => v
    }
  }

  /**
   * The exceptions the modelled services throw. A thrown exception aborts the
   * whole operation, which the model expresses by returning `Err` without
   * changing any state.
   */
  datatype Error =
    | NotFound(entity: string)          // ResourceNotFoundException
    | Validation(message: string)       // ValidationException
    | IllegalArgument(message: string)  // IllegalArgumentException
    | Runtime(message: string)          // RuntimeException
    | NullPointer                       // NullPointerException (unboxing or dereferencing null)
    | DivisionByZero                    // ArithmeticException from BigDecimal.divide by zero
    | ConstraintViolation(message: string)  // a saved entity breaks a declared field or uniqueness constraint

  datatype Result<T> = Ok(value: T) | Err(error: Error)
  {
    predicate IsFailure() { Err? }

    function PropagateFailure<U>(): Result<U>
      requires Err?
    {
      Err(error)
    }

    function Extract(): T
      requires Ok?
    {
      value
    }
  }
}
