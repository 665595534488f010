/** A value that may be missing: None in Python, an empty shared_ptr in C++. */
module Options {
  datatype Option<+T> = None | Some(value: T)
}
