/** The sizes that the forward loop and the thread protocol share. */
module Limits {

  /** The stack array that both directions of a connection share. */
  const SCRATCH_SIZE := 4096

  /** The cap of each queue. */
  const MAX_BUFFER_CAP := 262144

  /** Above this much pending, one visit to the receive loop stops. */
  const BACKPRESSURE := 65536
}
