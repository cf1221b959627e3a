/** The optional-value datatype used for regular-expression matches that may fail,
    map lookups that may miss and the simulator's nullable error message. */
module Wrappers {

  datatype Option<+T> = None | Some(value: T)
}
