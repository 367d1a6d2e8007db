/** A snapshot that may or may not have arrived this cycle. */
module Wrappers {

  datatype Option<+T> = None | Some(value: T)
}
