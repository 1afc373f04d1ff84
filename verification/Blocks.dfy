/** The records that the miner passes between its components (src/common.hpp, src/queue/store.hpp). */
module Blocks {

  datatype Option<+T> = None | Some(value: T) {
    function GetOr(default: T): T {
      match this
      case Some(v) => v
      case None => default
    }
  }

  type int32 = x: int | -0x8000_0000 <= x < 0x8000_0000

  /** A value stored to a 32-bit C++ int. */
  function Wrap32(x: int): (r: int32)
    ensures -0x8000_0000 <= x < 0x8000_0000 <==> r == x
  {
    (x + 0x8000_0000) % 0x1_0000_0000 - 0x8000_0000
  }

  /** Storing a value to an int changes it by a multiple of 2^32. */
  lemma WrapsModulo(x: int)
    ensures (x - Wrap32(x)) % 0x1_0000_0000 == 0
  {
    var r := (x + 0x8000_0000) % 0x1_0000_0000;
    assert x - Wrap32(x) == 0x1_0000_0000 * ((x + 0x8000_0000) / 0x1_0000_0000);
  }

  datatype Hit = Hit(
    key: string,
    hashStr: string,
    blockType: string,
    attempts: int,
    strategy: string,
    hps: real,
    foundAt: string,
    memoryCost: Option<int32>,
    payoutAccount: string,
    saltHex: string,
    feeBlock: bool)

  datatype PendingBlock = PendingBlock(
    id: int,
    hit: Hit,
    queueReason: string,
    rejectCount: int32,
    forwarded: bool)

  /** The memory cost that a queue entry counts as: its own, or the default of the caller. */
  function EffectiveM(hit: Hit, defaultM: int, netM: int): int {
    match hit.memoryCost
    case Some(m) => m
    case None => if defaultM > 0 then defaultM else netM
  }
}
