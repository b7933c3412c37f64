/** Python's "a value or None", used for fetched price lists and averages. */
module Wrappers {

  datatype Option<+T> = None | Some(value: T)
}
