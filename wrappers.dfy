/** The Option datatype used for every external query that can fail. */
module Wrappers {

  datatype Option<+T> = None | Some(value: T)
}
