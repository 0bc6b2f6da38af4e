/** The `None`-or-value type used for the tracker's optional previous sample. */
module Optional {

  /** `None` plays the role of Python's `None` for a field that is not set yet. */
  datatype Option<+T> = None | Some(value: T)
}
