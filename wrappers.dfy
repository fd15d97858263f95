/** The optional value the firmware expresses with a success flag and an
    out-parameter (a sensor read that may fail, a value a call may or may
    not report). */
module Wrappers {

  datatype Option<+T> = None | Some(value: T)

}
