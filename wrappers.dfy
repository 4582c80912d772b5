/** Optional values: `None` stands for JavaScript's `null`/`undefined` and
    for a Python attribute that has not been assigned yet. */
module Wrappers {

  datatype Option<+T> = None | Some(value: T)
}
