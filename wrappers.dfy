/** Java's `null` and the runtime exceptions the generator can raise, as values. */
module Wrappers {

  /** A reference that may be `null`. */
  datatype Option<+T> = None | Some(value: T)

  /** The runtime exceptions of java.lang that the code paths modelled here can throw. */
  datatype Exception =
    | NullPointer             // a method called on a null reference
    | StringIndexOutOfBounds  // String.substring with bad bounds
    | ArrayIndexOutOfBounds   // indexing the array returned by String.split
    | IllegalArgument         // thrown explicitly by the launcher's argument parser

  /** Either a value or the exception that ended the computation. */
  datatype Result<+T> = Ok(value: T) | Err(error: Exception) {
    predicate IsFailure() { Err? }

    function PropagateFailure<U>(): Result<U>
      requires Err?
    {
      Err(error)
    }

    function Extract(): T
      requires Ok?
    {
      value
    }
  }
}
