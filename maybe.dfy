/** A value that may be absent: Python's `None` or a value. */
module Maybe {
  datatype Option<T> = None | Some(value: T)
}
