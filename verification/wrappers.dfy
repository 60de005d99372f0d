/** Types shared by the other modules. */
module Wrappers {

  /** An optional value: a missing session or token. */
  datatype Option<+T> = None | Some(value: T)
}
