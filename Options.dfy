/** An optional value: Python's `None` or a value. */
module Options {
  datatype Option<T> = None | Some(value: T)
}
