/** The optional value used wherever the source uses None for "nothing". */
module Wrappers {
  datatype Option<+T> = None | Some(value: T)
}
