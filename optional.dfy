/** An absent-or-present value: the model of a nullable or optional field. */
module Optional {
  datatype Option<+T> = None | Some(value: T)
}
