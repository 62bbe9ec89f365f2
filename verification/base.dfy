/** Small shared vocabulary of the adaptive quality controller model. */
module Base {

  /** An optional value: a step that does nothing carries None. */
  datatype Option<T> = None | Some(value: T)

  /** A quality direction. The controller encodes it as the integers -1, 0 and +1:
      Down is -1, Hold is 0 and Up is +1. When it records the last applied change,
      Hold (0) means that no change has been applied yet. */
  datatype Dir = Down | Hold | Up
}
