/** The optional value the source writes as `None` or a present object. */
module Options {
  datatype Option<+T> = None | Some(value: T)
}
