/** The optional value used where the source keeps `null` or leaves a key out. */
module Wrappers {
  datatype Option<+T> = None | Some(value: T)
}
