/** Shared vocabulary: a value that may be absent. */
module Basics {

  datatype Option<+T> = None | Some(value: T)

}
