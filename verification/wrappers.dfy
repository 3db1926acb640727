/** The "found or not found" signal that slot and node lookups return. */
module Wrappers {

  datatype Option<+T> = None | Some(value: T)
}
