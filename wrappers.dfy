/** Option type used for the error paths of the model (a Python exception
    the source does not catch becomes `None`). */
module Wrappers {

  datatype Option<+T> = None | Some(value: T)

}
