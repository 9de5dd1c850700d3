/** The usual optional-value datatype, used for the results of the parsers
    that serve as partners of the renderers. */
module Wrappers {
  datatype Option<+T> = None | Some(value: T)
}
