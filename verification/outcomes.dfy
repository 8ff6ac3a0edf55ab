/** Failure-carrying results shared by every part of the model.

    The Python code reports trouble by raising an exception (or, for numpy,
    by quietly producing inf/nan).  Here each such exit is a named error kind
    carried by `Err`, so every operation is total and its error path can be
    stated in its contract.
 */
module Outcomes {

  /** The ways an operation of the model can fail. */
  datatype Error =
    | NotIterable          // a non-zero integer given as the hidden-layer specification
    | UnknownMethod        // `train` called with a method other than "sgd" or "adam"
    | RowIndexOutOfRange   // `partition` given fewer target rows than input rows
    | DivisionByZero       // `partition` with zero folds
    | FoldIndexOutOfRange  // `partition` with fewer than two folds: `folds[1]` does not exist
    | NothingToStack       // `partition` with exactly two folds: no fold is left for training
    | ShapeMismatch        // operands whose lengths do not broadcast
    | ZeroStd              // standardising by a standard deviation of zero

  datatype Result<+T> = Ok(value: T) | Err(error: Error) {

    predicate IsFailure() {
      Err?
    }

    function PropagateFailure<U>(): Result<U>
      requires Err?
    {
      Err(error)
    }

    function Extract(): T
      requires Ok?
    {
      value
    }
  }

  /** A value that may be absent, such as Python's `None`. */
  datatype Option<+T> = None | Some(value: T)
}
