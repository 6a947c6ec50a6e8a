/** Optional values for results that may be absent. */
module Wrappers {

  /** A value that may be missing: a Java `null`, or a `false` success flag with nothing appended. */
  datatype Option<+T> = None | Some(value: T)
}
