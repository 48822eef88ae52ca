/** Failure-carrying results shared by the generator and the driver. */
module Outcomes {

  /** Why an operation gave up instead of producing a value. */
  datatype ErrorKind =
    | InvalidArgument          // std::invalid_argument: a window of the wrong length
    | DimensionMismatch        // element-wise vector operation on vectors of different lengths
    | MissingMinimalThreshold  // the driver refuses a minimal threshold of zero
    | NoData                   // the driver refuses an empty data set

  datatype Result<+T> = Success(value: T) | Failure(error: ErrorKind)

  datatype Option<+T> = None | Some(value: T)
}
