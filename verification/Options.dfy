module Options {

  /** A result that may be missing: the source's nil, or its second, boolean result. */
  datatype Option<+T> = None | Some(value: T)
}
