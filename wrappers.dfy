/** Failure-carrying values shared by every module of the model.

    Option stands for Python's `None`-or-value returns; Outcome stands for a
    call that either returns a value or raises an exception whose text is
    kept (the `str(e)` that the source records). */
module Wrappers {

  datatype Option<+T> = None | Some(value: T)
  {
    predicate IsFailure() { None? }

    function PropagateFailure<U>(): Option<U>
      requires None?
    {
      None
    }

    function Extract(): T
      requires Some?
    {
      value
    }
  }

  datatype Outcome<+T> = Ok(value: T) | Raised(error: string)
  {
    predicate IsFailure() { Raised? }

    function PropagateFailure<U>(): Outcome<U>
      requires Raised?
    {
      Raised(error)
    }

    function Extract(): T
      requires Ok?
    {
      value
    }
  }
}
