/** The optional value used for the segment's extension slot and for the
    selection scan's running best. */
module Wrappers {

  datatype Option<+T> = None | Some(value: T)
}
