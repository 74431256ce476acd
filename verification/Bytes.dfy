/** What the parser reads and the codec writes. */
module Bytes {
  type byte = b: int | 0 <= b < 256
}
