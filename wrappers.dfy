/** An optional value: the model's stand-in for a Unity object reference that may be null. */
module Wrappers {

  datatype Option<+T> = None | Some(value: T)
}
