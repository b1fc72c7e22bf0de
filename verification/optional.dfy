/** A value that may be absent: the model's counterpart of a nullable reference. */
module Optional {
  datatype Option<+T> = None | Some(value: T)
}
