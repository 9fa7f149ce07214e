/** Optional values: `None` stands for a pandas NaN cell (an undefined rolling value). */
module Options {
  datatype Option<+T> = None | Some(value: T)
}
