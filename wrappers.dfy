/** A value that may be absent: `null` in the source's React state. */
module Wrappers {

  datatype Option<+T> = None | Some(value: T)
}
