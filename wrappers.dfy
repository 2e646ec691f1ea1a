/** Small failure-carrying datatypes shared by the other modules. */
module Wrappers {

  datatype Option<+T> = None | Some(value: T)

  /** The result of a step that may throw: either a value, or an exception
      carrying the `message` its catcher reads. */
  datatype Outcome<+T> = Ok(value: T) | Thrown(message: string)
}
