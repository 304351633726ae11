/** The optional value used for calls that either produce a result or throw
    an exception that the caller catches. */
module Wrappers {
  datatype Option<+T> = None | Some(value: T)
}
