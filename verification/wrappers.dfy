/** Optional values: `None` stands for a JavaScript `undefined` prop. */
module Wrappers {

  datatype Option<+T> = None | Some(value: T)
}
