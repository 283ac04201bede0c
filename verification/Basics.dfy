/** Vocabulary shared by every module of the model. */
module Basics {

  datatype Option<+T> = None | Some(value: T)

  datatype Result<+E> = Ok | Err(error: E)

  type byte = x: int | 0 <= x < 0x100
  type u16 = x: int | 0 <= x < 0x1_0000
  type u64 = x: int | 0 <= x < 0x1_0000_0000_0000_0000

  type Bytes = seq<byte>

  /** Peer identities. Only equality and the total order used by `sort` matter, so a peer is a number;
      the base-58 text of an identity is identified with the identity itself. */
  type PeerId = nat

  /** `as u16` on an index or a length. */
  function Cast(n: nat): u16 {
    n % 0x1_0000
  }

  /** A system time in whole seconds; negative before the Unix epoch. */
  type Seconds = x: int | -0x8000_0000_0000_0000 <= x < 0x8000_0000_0000_0000
}
