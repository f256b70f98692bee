/** Failure-carrying values shared by the whole model.

    Python signals a missing dictionary key with KeyError and a malformed
    number with ValueError; both propagate out of the functions modelled
    here, so they become the `Err` side of `Result`. TypeError is what
    pymongo's `insert_many` raises when handed an empty list. */
module Wrappers {

  datatype Option<+T> = None | Some(value: T)

  /** The Python exceptions the modelled code can raise. */
  datatype Error =
    | KeyError(key: string)
    | ValueError(input: string)
    | TypeError(message: string)

  datatype Result<+T> = Ok(value: T) | Err(error: Error) {
    predicate IsFailure() { Err? }

    function PropagateFailure<U>(): Result<U>
      requires Err?
    {
      Err(error)
    }

    function Extract(): T
      requires Ok?
    {
      value
    }
  }
}
