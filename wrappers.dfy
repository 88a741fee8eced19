/** Small failure-carrying datatypes shared by every module of the model. */
module Wrappers {

  /** A value that may be absent (JavaScript's `undefined`). */
  datatype Option<+T> = None | Some(value: T)

  /** The outcome of a piece of JavaScript that either returns a value or throws. */
  datatype Attempt<+T> = Done(value: T) | Threw
}
