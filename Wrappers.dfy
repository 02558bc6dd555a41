/** Option and Result values shared by the model: Kotlin's nullable types and thrown exceptions. */
module Wrappers {

  /** A Kotlin `T?`: absent (`null`) or present. */
  datatype Option<+T> = None | Some(value: T) {
    function GetOr(default: T): T {
      match this
      case Some(v) => v
      case None => default
    }

    /** The members that let `:-` stop at the first absent value. */
    predicate IsFailure() { None? }

    function PropagateFailure<U>(): Option<U>
      requires None?
    {
      None
    }

    function Extract(): T
      requires Some?
    {
      value
    }
  }

  /** The outcome of an operation that may throw: a value, or the exception's message. */
  datatype Result<+T> = Ok(value: T) | Err(message: string)
}
