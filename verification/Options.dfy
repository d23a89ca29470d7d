/** A value that may be absent: an unowned mutex, an empty table entry, no pending accept. */
module Options {
  datatype Option<+T> = None | Some(value: T)
}
