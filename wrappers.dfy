/** The outcome of an operation that the source lets fail with an exception. */
module Wrappers {

  datatype Option<+T> = None | Some(value: T)
}
