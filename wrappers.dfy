/** Option and Result types shared by the parser and the compiler. */
module Wrappers {

  datatype Option<+T> = None | Some(value: T)

  /** The Python exceptions the compiler can raise, plus the parser's failure. */
  datatype Error =
    | ParseError
    | TypeError
    | AttributeError
    | IndexError
    | KeyError
    | NameError

  datatype Result<+T> = Ok(value: T) | Err(error: Error) {
    predicate IsFailure() { Err? }

    function PropagateFailure<U>(): Result<U>
      requires Err?
    {
      Err(error)
    }

    function Extract(): T
      requires Ok?
    {
      value
    }
  }
}
