/** Optional values: `None` stands for JavaScript's `null`/`NaN` results. */
module Options {

  datatype Option<+T> = None | Some(value: T)

}
