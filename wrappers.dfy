/** The optional value used for lookups, body reads and JSON decoding. */
module Wrappers {

  datatype Option<+T> = None | Some(value: T)
}
