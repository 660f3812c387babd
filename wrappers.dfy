/** A value that may be absent: a JSON field that is missing or null, a search that finds nothing. */
module Wrappers {
  datatype Option<+T> = None | Some(value: T)
}
