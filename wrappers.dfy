/** The optional value shared by the two components of the model. */
module Wrappers {

  datatype Option<+T> = None | Some(value: T)
}
