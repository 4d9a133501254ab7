/** The messages robot and beacon exchange. */
module Protocol {
  import opened Bytes

  const PROTOCOL_VERSION: Byte := 1
  const BEACON_ID: Byte := 1
  const MAX_FILE: nat := 256
  const PACKET_SIZE: nat := 20
  const DATA_BYTES: nat := 17

  const HELLO: Byte := 0x01
  const HELLO_ACK: Byte := 0x02
  const FILE_START: Byte := 0x03
  const FILE_READY: Byte := 0x04
  const FILE_DATA: Byte := 0x05
  const FILE_END: Byte := 0x06
  const FILE_RECEIVED: Byte := 0x07
  const REPLY_REQUEST: Byte := 0x08
  const REPLY_START: Byte := 0x09
  const REPLY_NEXT: Byte := 0x0A
  const REPLY_DATA: Byte := 0x0B
  const REPLY_END: Byte := 0x0C
  const COMPLETE: Byte := 0x0D
  const COMPLETE_ACK: Byte := 0x0E
  const ERROR: Byte := 0x7F

  function Increment(b: Byte): Byte {
    if b == 0xFF then 0 else b + 1
  }

  /** How much of the rest goes into the next packet. */
  function ChunkOf(remaining: nat): (chunk: Byte)
    ensures chunk <= remaining && chunk <= DATA_BYTES && (remaining > 0 ==> chunk > 0)
  {
    if remaining > DATA_BYTES then DATA_BYTES else remaining
  }
}
