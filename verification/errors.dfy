/** The exceptions raised along the modelled paths, and a result type that carries them. */
module Errors {

  /** A ValueError raised by Python or numpy, by cause. */
  datatype Error =
    | ZeroStep            // range() was given a step of 0
    | NegativeDimensions  // numpy was asked for an array of negative length

  /** Either the value a call returns or the exception it raises. */
  datatype Result<+T> = Ok(value: T) | Err(error: Error)
}
