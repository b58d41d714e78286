/** The optional value used across the model, for values JavaScript leaves `undefined`. */
module Wrappers {

  datatype Option<+T> = None | Some(value: T)
}
