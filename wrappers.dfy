/** The optional value used for pandas' "number or missing" cells and for lookups that may fail. */
module Wrappers {
  datatype Option<+T> = None | Some(value: T)
}
