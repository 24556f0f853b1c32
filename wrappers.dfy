/** The optional value used wherever the viewer keeps a field that may still be `null`. */
module Wrappers {

  datatype Option<+T> = None | Some(value: T)

}
