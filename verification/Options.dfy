/** Optional values: what the code leaves as `None`. */
module Options {
  datatype Option<+T> = None | Some(value: T)
}
