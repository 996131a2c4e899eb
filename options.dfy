/** A value that may be absent: the nullable BaseShape that Tessellate returns. */
module Options {
  datatype Option<+T> = None | Some(value: T)
}
