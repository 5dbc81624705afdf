/** Values that stand for JavaScript promises observed at one moment, and an
    optional value. A promise is either not settled yet, fulfilled with a
    value, or rejected with an error. */
module Outcomes {

  datatype Option<+T> = None | Some(value: T)

  datatype Outcome<+T, +E> = Unsettled | Fulfilled(value: T) | Rejected(error: E)
}
