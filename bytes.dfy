/** Octets, as held by Node `Buffer`s and `ArrayBuffer`s. */
module Bytes {

  type byte = x: int | 0 <= x < 0x100
}
