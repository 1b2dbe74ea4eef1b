/** Optional values, used where the source has `Option<_>`. */
module Options {

  datatype Option<+T> = None | Some(value: T)
}
