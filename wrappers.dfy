/** The optional-value type shared by the schema decoder and the notification model. */
module Wrappers {

  datatype Option<+T> = None | Some(value: T)
}
