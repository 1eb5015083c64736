/** Clock readings and the two observation outcomes shared by every trace. */
module Clock {

  const NANOSECOND_LIMIT: int := 0x1_0000_0000_0000_0000_0000_0000_0000_0000

  /** A canonical bounded nanosecond reading: below 2^128. */
  type Nanos = t: nat | t < NANOSECOND_LIMIT

  datatype Outcome = Succeeded | Rejected

  datatype Limits = Limits(maxSamplesPerPhase: int, maxInFlightPerPhase: int)
}
