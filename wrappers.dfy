/** A value that may be absent: a record key that is not set, or `null`. */
module Wrappers {

  datatype Option<+T> = None | Some(value: T)
}
