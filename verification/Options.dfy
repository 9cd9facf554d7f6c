/** The optional value that stands for the bridge's nullable pointers and std::optional fields. */
module Options {
  datatype Option<+T> = None | Some(value: T)
}
