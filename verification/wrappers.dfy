/** Option: a value that may be absent (a failed measurement, a missing port name). */
module Wrappers {
  datatype Option<+T> = None | Some(value: T)
}
