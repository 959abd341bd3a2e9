/** The Some/None wrapper used wherever the drawing engine answers `null`. */
module Wrappers {
  datatype Option<+T> = None | Some(value: T)
}
