/** The Some/None datatype used for optional values: an absent option field,
    and a visitor call that reports nothing. */
module Wrappers {

  datatype Option<+T> = None | Some(value: T)
}
