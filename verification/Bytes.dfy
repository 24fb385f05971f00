/** Byte strings, shared by every component that carries program text or output. */
module Bytes {
  type byte = b: int | 0 <= b < 0x100

  type Data = seq<byte>
}
