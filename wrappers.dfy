/** The Option datatype the rest of the model uses for "maybe absent". */
module Wrappers {

  datatype Option<+T> = None | Some(value: T)
}
