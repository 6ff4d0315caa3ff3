/** Optional values: a React ref that may not be attached yet, a child object
    that a lookup by name may not find, a key code that is bound to nothing. */
module Wrappers {

  datatype Option<+T> = None | Some(value: T)
}
