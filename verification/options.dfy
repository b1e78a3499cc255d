/** A value that may be absent: Python's `None` and Kotlin's `null`. */
module Options {
  datatype Option<+T> = None | Some(value: T)
}
