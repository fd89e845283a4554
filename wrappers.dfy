/** The "not found" sentinel of visual search and of optional context entries. */
module Wrappers {
  datatype Option<+T> = None | Some(value: T)
}
