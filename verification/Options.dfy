module Options {
  /** A value that may be missing: nil, None, undefined. */
  datatype Option<T> = None | Some(value: T)
}
