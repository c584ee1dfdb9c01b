/** What buffers and messages are made of. */
module Memory {
  newtype Byte = b: int | 0 <= b < 256

  type Bytes = seq<Byte>
}
