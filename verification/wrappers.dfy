/** Optional values: the model's rendering of a JavaScript `T | undefined`. */
module Wrappers {

  datatype Option<+T> = None | Some(value: T)
}
