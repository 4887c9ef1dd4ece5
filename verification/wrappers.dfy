/** The Option datatype the model uses for reads that can run out of input. */
module Wrappers {

  datatype Option<+T> = None | Some(value: T)
}
