/** A value or nothing: a missing field, an unreadable time, or a call that threw. */
module Options {
  datatype Option<+T> = None | Some(value: T)
}
