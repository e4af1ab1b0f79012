/** The conventional optional value, used for parsers and partial decoders. */
module Wrappers {
  datatype Option<+T> = None | Some(value: T)
}
