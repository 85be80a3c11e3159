/** A value that may be absent: the model of java.util.Optional. */
module Wrappers {

  datatype Option<+T> = None | Some(value: T)
}
