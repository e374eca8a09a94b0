/** The optional-value datatype the model uses for "no object here". */
module Wrappers {

  datatype Option<+T> = None | Some(value: T)
}
