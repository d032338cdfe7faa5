/** Option and outcome types shared by the model. */
module Wrappers {

  /** A Python value that may be `None`. */
  datatype Option<+T> = None | Some(value: T)

  /** The result of evaluating Python code that may raise: either it returns
      a value, or an exception escapes to the caller. The exception's class
      is not modelled; every escaping exception is the same `Raised`. */
  datatype Outcome<+T> = Ok(value: T) | Raised
}
