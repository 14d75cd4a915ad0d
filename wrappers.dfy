/** The optional-value datatype used for "nothing found" results. */
module Wrappers {
  datatype Option<+T> = None | Some(value: T)
}
