/** Bytes and their digests; a hash is any function from byte sequences to digests. */
module Bytes {
  newtype Byte = x: int | 0 <= x < 256

  datatype Digest = Digest(n: nat)

  type Hash = seq<Byte> -> Digest
}
