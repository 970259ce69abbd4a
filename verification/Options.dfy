/** The value that may be absent: Go's nil, Kotlin's null. */
module Options {
  datatype Option<+T> = None | Some(value: T)
}
