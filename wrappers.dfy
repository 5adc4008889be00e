/** The conventional optional value, used for the signed-in user and for document lookups. */
module Wrappers {
  datatype Option<+T> = None | Some(value: T)
}
