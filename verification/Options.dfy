// The optional value shared by every component model: a nullable column, a nil
// pointer or a missing map entry.
module Options {
  datatype Option<+T> = None | Some(value: T)
}
