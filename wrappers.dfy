/** The usual Some/None wrapper, for values the source may find missing
    (`undefined`, an empty query result, a number that does not parse). */
module Wrappers {

  datatype Option<+T> = None | Some(value: T)
}
