/** The byte type shared by the data-carrying components. */
module Bytes {
  newtype byte = b: int | 0 <= b < 256
}
