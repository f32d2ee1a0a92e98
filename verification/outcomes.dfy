/** Failure-carrying wrappers shared by the quantitative engine. */
module Outcomes {

  /** A value that may be absent, as `undefined` is in the source. */
  datatype Option<+T> = None | Some(value: T)

  /** The ways the engine cannot produce a number.
      - InsufficientData: a return series is empty, so its mean does not exist.
      - DimensionMismatch: two vectors that are multiplied element-wise differ in length.
      - DegenerateSample: a series has a single sample, so the unbiased covariance
        would divide by zero. */
  datatype QuantError = InsufficientData | DimensionMismatch | DegenerateSample

  /** The outcome of an engine operation. */
  datatype Result<+T> = Success(value: T) | Failure(error: QuantError)
}
