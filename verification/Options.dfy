/** A value that may be missing: null pointers, meta::maybe and unset indexes. */
module Options {
  datatype Option<+T> = None | Some(value: T)
}
