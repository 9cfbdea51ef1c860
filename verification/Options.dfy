/** A value that may be missing: JavaScript's null and Python's None. */
module Options {

  datatype Option<+T> = None | Some(value: T)
}
