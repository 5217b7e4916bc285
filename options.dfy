/** A value that may be absent: an optional input field, a lookup that may fail. */
module Options {
  datatype Option<+T> = None | Some(value: T)
}
