/** The optional value used where the gateway's code returns or stores `None`. */
module Wrappers {
  datatype Option<+T> = None | Some(value: T)
}
