/** The optional value used wherever the source may find nothing (`undefined`, `null`)
    or where a library call may throw instead of returning. */
module Wrappers {

  datatype Option<+T> = None | Some(value: T)

}
