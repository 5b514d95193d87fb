/** Python's `None`-or-value fields and parameters. */
module Optional {
  datatype Option<+T> = None | Some(value: T)
}
