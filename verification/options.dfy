/** Optional values: JavaScript's `undefined` (and the falsy lookups that produce it). */
module Options {
  datatype Option<+T> = None | Some(value: T)
}
