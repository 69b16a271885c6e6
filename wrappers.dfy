/** Small failure-carrying datatypes shared by the modules of this project.
    `Option` stands for a nullable column or a key missing from a form's
    cleaned data (Python's None); `Result` stands for "returns the value or
    raises ValidationError", and `Outcome` for a check that returns nothing
    or raises. */
module Wrappers {

  datatype Option<+T> = None | Some(value: T)

  datatype Result<+R, +E> = Success(value: R) | Failure(error: E)

  datatype Outcome<+E> = Pass | Fail(error: E)
}
