/** Failure-compatible wrappers shared by every module, and the failures the
    scripts can raise (each one aborts the operation that raised it). */
module Wrappers {

  datatype Option<+T> = None | Some(value: T)

  /** The exceptions the modelled scripts raise, named by what went wrong. */
  datatype Failure =
    | MissingKey(key: string)   // a dictionary lookup of an absent key
    | IndexOutOfRange           // indexing an empty string or list
    | BadUnpack                 // unpacking a split that gave too few parts
    | InvalidArgument           // a range with step zero
    | Unbound(name: string)     // reading a local variable never assigned
    | Raised(message: string)   // an explicit `raise Exception(message)`

  datatype Result<+T> = Ok(value: T) | Err(error: Failure) {

    predicate IsFailure() {
      Err?
    }

    function PropagateFailure<U>(): Result<U>
      requires Err?
    {
      Err(error)
    }

    function Extract(): T
      requires Ok?
    {
      value
    }
  }
}
