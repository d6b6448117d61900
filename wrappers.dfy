/** The optional-value datatype used for absent fields, failed fetches and
    parses that may fail. */
module Wrappers {

  datatype Option<+T> = None | Some(value: T)
}
