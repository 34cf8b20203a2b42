/** Values shared by several components. */
module Basics {

  datatype Option<T> = None | Some(value: T)

  /** The status column of a conversion job. */
  datatype JobStatus = AWAITING_UPLOAD | PENDING | PROCESSING | COMPLETED | FAILED
}
