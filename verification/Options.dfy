/** A value that may be missing: an error return, a failed call, a row that is not there. */
module Options {
  datatype Option<+T> = None | Some(value: T)
}
