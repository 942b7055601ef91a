/** The nullable references of the Java code (a continuation token, a page's
    item list, a response header) are modelled as `Option` values: `None`
    stands for `null`. */
module Wrappers {

  datatype Option<+T> = None | Some(value: T)
}
