/** Values shared by every part of the model: nullable references and the exceptions the
    repositories raise, carried in a failure-compatible Result instead of being thrown. */
module Common {

  /** A nullable reference: None is C#'s null. */
  datatype Option<+T> = None | Some(value: T)

  /** The .NET exceptions the modelled code can raise. */
  datatype Exception =
    | ArgumentException                          // an include-path selector of an unsupported shape
    | ArgumentNullException                      // Enumerable.ToList() on a null sequence
    | NullReferenceException                     // a member called on a null string
    | SerializationException                     // an argument the key encoder cannot serialise
    | NotSupportedException(message: Option<string>)
    | NotImplementedException

  /** The outcome of a call that either returns a value or throws. */
  datatype Result<+T> = Success(value: T) | Failure(error: Exception) {
    predicate IsFailure() {
      Failure?
    }

    function PropagateFailure<U>(): Result<U>
      requires Failure?
    {
      Failure(error)
    }

    function Extract(): T
      requires Success?
    {
      value
    }
  }
}
