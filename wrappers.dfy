/** The optional value used throughout the chat model for "absent" slots and lookups. */
module Wrappers {

  datatype Option<+T> = None | Some(value: T)
}
