/** The nullable results of the obstacle manager: `null` in the game becomes `None`. */
module Options {
  datatype Option<+T> = None | Some(value: T)
}
