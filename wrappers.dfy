/** The optional value used throughout the binding. */
module Wrappers {

  datatype Option<T> = None | Some(value: T)
}
