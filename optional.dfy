/** A value that may be absent: JavaScript's `undefined` beside a value. */
module Optional {
  datatype Option<+T> = None | Some(value: T)
}
