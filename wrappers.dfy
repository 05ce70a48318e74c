/** The optional value used for an absent description and for operations
    (decoding, sending) that may fail without saying why. */
module Wrappers {
  datatype Option<+T> = None | Some(value: T)
}
