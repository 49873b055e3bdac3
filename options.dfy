/** The conventional optional value, used wherever the script gets `None` back. */
module Options {

  datatype Option<+T> = None | Some(value: T)
}
