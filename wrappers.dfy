/** The optional value used for a lookup that may find nothing and for a result that may not exist yet. */
module Wrappers {
  datatype Option<+T> = None | Some(value: T)
}
