/** Optional values: the Java `null` that the configuration library hands back
    for a node that holds nothing. */
module Wrappers {

  datatype Option<+T> = None | Some(value: T)
}
