/** A value that may be absent: a fetch that failed, a key that is not set. */
module Optional {
  datatype Option<+T> = None | Some(value: T)
}
