/** Optional values: `null`/absent in the component's state and storage. */
module Wrappers {

  datatype Option<+T> = None | Some(value: T)
}
