/** The optional-value datatype used for "at most one MIDI message per call". */
module Wrappers {

  datatype Option<+T> = None | Some(value: T)

}
