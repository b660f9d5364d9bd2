/** The optional value shared by the driver models. */
module Wrappers {

  datatype Option<+T> = None | Some(value: T)
}
