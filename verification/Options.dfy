/** A value that may be absent: Go's nil values and comma-ok results. */
module Options {
  datatype Option<+T> = None | Some(value: T)
}
