/** An optional value: a request field that may be absent, a collaborator call that may fail. */
module Wrappers {

  datatype Option<+T> = None | Some(value: T)
}
