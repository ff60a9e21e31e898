/** An optional value: used for the hand landmarks, which the hand tracker may not find. */
module Options {
  datatype Option<+T> = None | Some(value: T)
}
