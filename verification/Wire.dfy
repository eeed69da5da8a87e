/** The ADB wire format: commands, messages, 24-byte headers. */
module Wire {
  import opened Bytes

  const HEADER_LEN := 24
  const VERSION: u32 := 0x0100_0001
  const VERSION_MIN: u32 := 0x0100_0000
  const VERSION_SKIP_CHECKSUM: u32 := 0x0100_0001
  const MAX_PAYLOAD: u32 := 0x10_0000
  const LEGACY_MAX_PAYLOAD: u32 := 0x4_0000

  datatype Command = Sync | Connect | Auth | Open | Okay | Close | Write | StartTls

  datatype Message = Message(command: Command, arg0: u32, arg1: u32, payload: Data)

  datatype Header = Header(command: Command, arg0: u32, arg1: u32, dataLength: u32, dataCheck: u32)

  datatype WireError = BadMagic | UnknownCommand | TooLong

  function Empty(command: Command, arg0: u32, arg1: u32): Message {
    Message(command, arg0, arg1, [])
  }

  function Code(c: Command): u32 {
    match c
    case Sync => 0x434e_5953
    case Connect => 0x4e58_4e43
    case Auth => 0x4854_5541
    case Open => 0x4e45_504f
    case Okay => 0x5941_4b4f
    case Close => 0x4553_4c43
    case Write => 0x4554_5257
    case StartTls => 0x534c_5453
  }

  function FromCode(code: u32): Option<Command> {
    if code == 0x434e_5953 then Some(Sync)
    else if code == 0x4e58_4e43 then Some(Connect)
    else if code == 0x4854_5541 then Some(Auth)
    else if code == 0x4e45_504f then Some(Open)
    else if code == 0x5941_4b4f then Some(Okay)
    else if code == 0x4553_4c43 then Some(Close)
    else if code == 0x4554_5257 then Some(Write)
    else if code == 0x534c_5453 then Some(StartTls)
    else None
  }

  /** The payload checksum: the wrapping sum of the bytes. */
  function Checksum(payload: Data): u32 {
    if payload == [] then 0
    else (Checksum(payload[..|payload| - 1]) + payload[|payload| - 1]) % 0x1_0000_0000
  }

  /** `Message::header`: none if the payload is longer than 32 bits can say. */
  function HeaderOf(m: Message, withChecksum: bool): Option<Header> {
    if |m.payload| > U32_MAX then None
    else Some(Header(m.command, m.arg0, m.arg1, |m.payload|, if withChecksum then Checksum(m.payload) else 0))
  }

  function WithPayload(h: Header, payload: Data): Message {
    Message(h.command, h.arg0, h.arg1, payload)
  }

  /** `code ^ 0xFFFF_FFFF`. */
  function Magic(code: u32): u32 {
    0xFFFF_FFFF - code
  }

  function EncodeHeader(h: Header): (b: Data)
    ensures |b| == HEADER_LEN
  {
    var code := Code(h.command);
    Le32(code) + Le32(h.arg0) + Le32(h.arg1) + Le32(h.dataLength) + Le32(h.dataCheck) + Le32(Magic(code))
  }

  function DecodeHeader(b: Data, maxPayload: u32): Result<Header, WireError>
    requires |b| == HEADER_LEN
  {
    var code := U32At(b, 0);
    if U32At(b, 20) != Magic(code) then Err(BadMagic)
    else if FromCode(code).None? then Err(UnknownCommand)
    else if U32At(b, 12) > Min(maxPayload, MAX_PAYLOAD) then Err(TooLong)
    else Ok(Header(FromCode(code).value, U32At(b, 4), U32At(b, 8), U32At(b, 12), U32At(b, 16)))
  }
}
