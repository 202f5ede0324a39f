/** The optional value used wherever a Go call can come back empty-handed. */
module Wrappers {

  datatype Option<+T> = None | Some(value: T)
}
