// The optional values shared by every component.
module Options {
  datatype Option<+T> = None | Some(value: T)

  /** A number that was read and is above zero. */
  predicate Positive(x: Option<real>) {
    x.Some? && x.value > 0.0
  }
}
