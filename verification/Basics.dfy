/** Types every other module shares. */
module Basics {

  datatype Option<+T> = None | Some(value: T)

  datatype Result<+T, +E> = Ok(value: T) | Err(error: E)

  const UUID_SPACE: int := 0x1_0000_0000_0000_0000_0000_0000_0000_0000

  /** A UUID as the number its 16 bytes spell, most significant byte first.
      PostgreSQL orders uuid columns byte by byte, which is the order of these numbers. */
  type Uuid = n: nat | n < UUID_SPACE

  /** Microseconds since the Unix epoch, the precision of a timestamptz column. */
  type Time = int

  /** SHA-256 is taken to be injective on the inputs considered. */
  datatype Digest = Sha256(preimage: string)
}
