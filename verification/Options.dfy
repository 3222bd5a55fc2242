/** A value, or none where the driver returns an error (or has nothing to return). */
module Options {
  datatype Option<+T> = None | Some(value: T)
}
