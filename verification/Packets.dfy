/** The packet, the protocol constants and the error values shared by every
    other module (protocol.go, consts.go, utils.go). */
module Packets {

  type byte = x: int | 0 <= x < 256
  type uint32 = x: int | 0 <= x < 0x1_0000_0000

  const MAX_UINT32: uint32 := 0xFFFF_FFFF

  type packetSize = x: int | 0 < x <= MAX_UINT32 witness 1

  const MAX_PATH_LEN: nat := 2048
  /** 16 MB in the source; every result holds for any size that fits the length field. */
  const MAX_PACKET_SIZE: packetSize
  const PACKET_READ_BUF_SIZE: nat := 512 * 1024

  /** Which end of a connection sends: requests carry statuses 0..3, responses 4..7. */
  datatype Role = Client | Server

  const STATUS_C0: byte := 0
  const STATUS_C1: byte := 1
  const STATUS_C2: byte := 2
  const STATUS_C3: byte := 3
  const STATUS_S4: byte := 4
  const STATUS_S5: byte := 5
  const STATUS_S6: byte := 6
  const STATUS_S7: byte := 7
  const STATUS_CLOSE: byte := 8

  /** The value of Channel.packetStatus before any packet has been read. */
  const STATUS_NONE: byte := 255

  datatype Packet = Packet(status: byte, path: seq<byte>, channelId: uint32, data: seq<byte>)

  /** One request or response as the user of a channel sees it. */
  datatype Message = Message(path: seq<byte>, data: seq<byte>)

  datatype Option<+T> = None | Some(value: T)

  datatype Error =
    | PathTooLarge
    | DataTooLarge
    | InvalidPath
    | ReadFailed
    | ConnectionClosed

  datatype Result<+T> = Ok(value: T) | Err(error: Error)
}
