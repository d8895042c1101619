/** Bytes, as the relay and the peer links carry them. */
module Bytes {
  type Byte = x: int | 0 <= x < 256
}
