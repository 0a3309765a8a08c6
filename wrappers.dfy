/** The optional value used wherever the component holds `T | null`. */
module Wrappers {

  datatype Option<+T> = None | Some(value: T)
}
