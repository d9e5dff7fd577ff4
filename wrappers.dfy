/** Small result types shared by the model. */
module Wrappers {

  /** A value that may be missing: JavaScript's `null` where a function may return nothing. */
  datatype Option<+T> = None | Some(value: T)

  /** How a JavaScript call completes: normally with a value, or by throwing (a TypeError here). */
  datatype Completion<+T> = Normal(value: T) | Throw
}
