/** An optional value: the model's stand-in for a nullable reference. */
module Options {

  datatype Option<+T> = None | Some(value: T)
}
