/** The failure-free optional value used throughout the model. */
module Prelude {
  datatype Option<+T> = None | Some(value: T)
}
