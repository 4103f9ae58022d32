/** Option and Result, the stand-ins for Java's null references and thrown exceptions. */
module Wrappers {

  datatype Option<T> = None | Some(value: T)

  /** The exceptions the modelled Java code can raise. */
  datatype Failure =
    | NullPointer(what: string)              // a dereferenced null reference
    | IndexOutOfBounds(what: string)         // get(0) on an empty EMF list
    | UnsupportedOperation(message: string)  // thrown explicitly by the source
    | Runtime(message: string)               // RuntimeException thrown explicitly by the source
    | RecursionLimit                         // the model's fuel ran out (a StackOverflowError in Java)

  datatype Result<T> = Success(value: T) | Fail(error: Failure)
  {
    predicate IsFailure() { Fail? }
  }
}
