/** Optional values: a field of the launch configuration that may be absent,
    or a query that may find nothing (`undefined` in the extension). */
module Wrappers {

  datatype Option<+T> = None | Some(value: T)
}
