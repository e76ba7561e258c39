/** Option, Result and Outcome: the model's stand-ins for Java's null references
    and for the fatal assertion failures the feature raises. */
module Wrappers {

  datatype Option<+T> = None | Some(value: T)

  datatype Result<+R, +E> = Success(value: R) | Failure(error: E)

  datatype Outcome<+E> = Pass | Fail(error: E)
}
