/** Option and Result types, and the exceptions the modelled code raises. */
module Wrappers {

  datatype Option<+T> = None | Some(value: T)

  /** The exceptions of the modelled code. `Raised` stands for a built-in
      Python or NumPy exception, named by its class; `Foreign` for an
      exception raised inside a SciPy routine handed an unusable argument. */
  datatype Error =
    | InvalidArguments(message: string)
    | InvalidReferenceData(message: string)
    | NotFitted(message: string)
    | CalculatorNotFitted(message: string)
    | CalculatorError(message: string)
    | Raised(name: string)
    | Foreign(message: string)

  datatype Result<+T> = Ok(value: T) | Err(error: Error) {
    predicate IsFailure() { Err? }

    function PropagateFailure<U>(): Result<U>
      requires Err?
    {
      Err(error)
    }

    function Extract(): T
      requires Ok?
    {
      value
    }
  }

  /** The outcome of an operation that returns nothing but may raise. */
  datatype Outcome = Pass | Fail(error: Error)
}
