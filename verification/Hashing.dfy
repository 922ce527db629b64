/** Bytes, 32-byte digests and what a collision is.

    The digest function is a parameter everywhere. No theorem assumes that it is injective: binding
    theorems end in "equal, or this pair is a collision", where a function computes the pair. */
module Hashing {

  type Byte = b: int | 0 <= b < 256

  type Bytes = seq<Byte>

  const HASH_SIZE: nat := 32

  type Hash32 = b: Bytes | |b| == HASH_SIZE witness seq(HASH_SIZE, _ => 0)

  type HashFn = Bytes -> Hash32

  /** The predecessor of a chain's first event. */
  function ZeroHash(): Hash32 {
    seq(HASH_SIZE, _ => 0)
  }

  /** The domain separation prefixes of leaves and of inner nodes. */
  const LEAF_PREFIX: Byte := 0
  const NODE_PREFIX: Byte := 1

  /** Two byte strings offered as a collision. */
  datatype Pair = Pair(first: Bytes, second: Bytes)

  predicate Collision(h: HashFn, p: Pair) {
    p.first != p.second && h(p.first) == h(p.second)
  }

  const NO_PAIR := Pair([], [])

  datatype Result<+T> = Ok(value: T) | Err(error: Error)

  datatype Error = ValueError | IndexError
}
