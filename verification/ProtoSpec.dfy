/** proto_spec.h: how a frame's first byte packs its type and flags, and the protocol's numbers. */
module ProtoSpec {
  import opened Bytes

  const COMPRESSED_PKT := 1
  const SHORT_PKT := 2

  /** (n << 2) | flags, cut to a byte: the two top bits of n are lost. */
  function StoreFlags(compressed: bool, short: bool, n: Byte): Byte {
    n % 64 * 4 + (if compressed then COMPRESSED_PKT else 0) + if short then SHORT_PKT else 0
  }

  predicate IsShort(data: Byte) { data / 2 % 2 == 1 }

  predicate IsCompressed(data: Byte) { data % 2 == 1 }

  function GetType(data: Byte): Byte { data / 4 }

  /** Types below 64 survive the packing; the two top bits of others are lost.  Flags survive. */
  lemma UnpacksPacked(compressed: bool, short: bool, n: Byte)
    ensures var data := StoreFlags(compressed, short, n);
            GetType(data) == n % 64 && IsCompressed(data) == compressed && IsShort(data) == short
  {}

  const PING: Byte := 0
  const ERROR: Byte := 1
  const CREATE_SERVER: Byte := 2
  const PACKET: Byte := 3
  const CONNECTED: Byte := 4
  const DISCONNECT: Byte := 5
  const STAT: Byte := 6
  const AUTH: Byte := 7

  const NO_SUCH_COMMAND: Byte := 0
  const NO_SESSION: Byte := 1
  const TOO_SHORT_BUFFER: Byte := 2
  const TOO_LONG_BUFFER: Byte := 3
  const SERVER_ALREADY_CREATED: Byte := 4
  const BUFFER_SIZE_INCORRECT: Byte := 5
  const NO_SUCH_CLIENT: Byte := 6
  const DECOMPRESSION_ERROR: Byte := 7
  const UNAVAILABLE_PORT: Byte := 9
  const NOT_IMPLEMENTED: Byte := 128

  const COMPRESS_MIN_THRESHOLD := 100
  const MAX_DECOMPRESSED_SIZE := 16777216
  const ID_SIZE := 4
}
