/** The conventional optional value, used where the relay holds an `Option`. */
module Wrappers {
  datatype Option<+T> = None | Some(value: T)
}
