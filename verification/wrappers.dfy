/** Optional values: `None` stands for JavaScript's `null`, `undefined` or `NaN`
    wherever the pages produce one of those instead of a value. */
module Wrappers {

  datatype Option<+T> = None | Some(value: T)
}
