/** Messages over a pair of bulk endpoints. An endpoint is a queue of packets of at most `mps`
    bytes. A transfer of `n` bytes travels as full packets and one last, possibly short one; a read
    request is complete when it is full or a short packet has arrived (section 5.8.3 of the USB 2.0
    specification). */
module Usb {
  import opened Bytes
  import opened Wire
  import opened WireCodec
  import opened Framed

  /** The packets of one transfer; an empty transfer is a zero-length packet. */
  function Packets(data: Data, mps: nat): seq<Data>
    requires mps > 0
  {
    if |data| > mps then [data[..mps]] + Packets(data[mps..], mps) else [data]
  }

  /** What `UsbSink::send` puts on the wire: header, payload, and a zero-length packet behind a
      payload that fills its last packet. */
  function MessagePackets(m: Message, cfg: WireConfig, mps: nat): seq<Data>
    requires mps > 0 && |m.payload| <= U32_MAX
  {
    var header := Packets(EncodeHeader(HeaderOf(m, cfg.computeChecksum).value), mps);
    if m.payload == [] then header
    else header + Packets(m.payload, mps) + Ending(m, mps)
  }

  function Ending(m: Message, mps: nat): seq<Data>
    requires mps > 0
  {
    if m.payload != [] && |m.payload| % mps == 0 then [[]] else []
  }

  /** A completed read: its bytes and the packets left. None while the request is incomplete. */
  datatype Completed = Completed(data: Data, rest: seq<Data>)

  function BulkRead(packets: seq<Data>, request: nat, mps: nat): Option<Completed>
    requires mps > 0
    decreases |packets|
  {
    if packets == [] then None
    else
      var p := packets[0];
      if |p| < mps || request <= mps then Some(Completed(p, packets[1..]))
      else
        match BulkRead(packets[1..], request - mps, mps)
        case None => None
        case Some(c) => Some(Completed(p + c.data, c.rest))
  }

  /** A request is rounded up to whole packets. */
  function Rounded(len: nat, mps: nat): nat
    requires mps > 0
  {
    var packets := if len == 0 then 1 else (len + mps - 1) / mps;
    packets * mps
  }

  /** How a transfer fails: the device is gone, or another error of the bus. */
  datatype TransferError = Unplugged | Faulty

  datatype UsbError =
    | TransferFailed(transfer: TransferError)
    | ShortPayload | WrongLength | TruncatedHead | HeadError(error: WireError) | BadChecksum

  function ReadAtMost(packets: seq<Data>, len: nat, mps: nat): Option<Completed>
    requires mps > 0
  {
    BulkRead(packets, Rounded(len, mps), mps)
  }

  lemma {:induction false} BulkReadConsumes(packets: seq<Data>, request: nat, mps: nat)
    requires mps > 0
    ensures BulkRead(packets, request, mps).Some? ==> |BulkRead(packets, request, mps).value.rest| < |packets|
    decreases |packets|
  {
    if packets != [] && |packets[0]| >= mps && request > mps {
      BulkReadConsumes(packets[1..], request - mps, mps);
    }
  }

  /** `read_exact` after `got`: reads until `len` bytes are there. A request that the packets do not
      complete fails with `down`. */
  function ReadRest(packets: seq<Data>, down: TransferError, got: Data, len: nat, mps: nat)
    : Result<Completed, UsbError>
    requires mps > 0
    decreases |packets|
  {
    if |got| > len then Err(WrongLength)
    else if |got| == len then Ok(Completed(got, packets))
    else
      match ReadAtMost(packets, len - |got|, mps)
      case None => Err(TransferFailed(down))
      case Some(c) =>
        BulkReadConsumes(packets, Rounded(len - |got|, mps), mps);
        if c.data == [] then Err(ShortPayload) else ReadRest(c.rest, down, got + c.data, len, mps)
  }

  function ReadPayload(packets: seq<Data>, down: TransferError, len: nat, mps: nat): Result<Completed, UsbError>
    requires mps > 0
  {
    match ReadAtMost(packets, len, mps)
    case None => Err(TransferFailed(down))
    case Some(c) => ReadRest(c.rest, down, c.data, len, mps)
  }

  /** Empty reads are skipped while waiting for a header. */
  function ReadHead(packets: seq<Data>, mps: nat): Option<Completed>
    requires mps > 0
    decreases |packets|
  {
    match ReadAtMost(packets, HEADER_LEN, mps)
    case None => None
    case Some(c) =>
      BulkReadConsumes(packets, Rounded(HEADER_LEN, mps), mps);
      if c.data == [] then ReadHead(c.rest, mps) else Some(c)
  }

  datatype Received = Received(message: Message, rest: seq<Data>)

  function RecvMessage(packets: seq<Data>, down: TransferError, cfg: WireConfig, mps: nat): Result<Received, UsbError>
    requires mps > 0
  {
    match ReadHead(packets, mps)
    case None => Err(TransferFailed(down))
    case Some(head) =>
      if |head.data| != HEADER_LEN then Err(TruncatedHead)
      else
        match DecodeHeader(head.data, cfg.maxPayload)
        case Err(e) => Err(HeadError(e))
        case Ok(h) =>
          var body := if h.dataLength == 0 then Ok(Completed([], head.rest))
                      else ReadPayload(head.rest, down, h.dataLength, mps);
          match body
          case Err(e) => Err(e)
          case Ok(c) =>
            var m := WithPayload(h, c.data);
            if cfg.verifyChecksum && h.dataCheck != Checksum(c.data) then Err(BadChecksum)
            else Ok(Received(m, c.rest))
  }

  lemma Joined(a: seq<Data>, b: seq<Data>, c: seq<Data>, d: seq<Data>)
    ensures a + b + c + d == a + (b + c + d)
    ensures a + b + c + [] == a + b + c
  {
  }

  /** A transfer is the data cut at every `mps` bytes, the last packet possibly short. */
  lemma {:induction false} TransferIsFull(data: Data, mps: nat)
    requires mps > 0
    ensures var ps := Packets(data, mps);
            && Flatten(ps) == data && |ps| > 0 && |ps[|ps| - 1]| <= mps
            && (data != [] ==> ps[|ps| - 1] != [])
            && (forall k :: 0 <= k < |ps| - 1 ==> |ps[k]| == mps)
            && (data != [] && |data| % mps != 0 ==> |ps[|ps| - 1]| < mps)
    decreases |data|
  {
    var ps := Packets(data, mps);
    if |data| > mps {
      TransferIsFull(data[mps..], mps);
      assert ps[1..] == Packets(data[mps..], mps);
      assert data == data[..mps] + data[mps..];
      OnePacketLess(|data|, mps);
    } else {
      assert Flatten([data]) == data + Flatten([]);
      if |data| == mps {
        assert mps % mps == 0;
      }
    }
  }

  lemma OnePacketLess(n: nat, mps: nat)
    requires 0 < mps <= n
    ensures (n - mps) % mps == n % mps
  {
    var q, r := n / mps, n % mps;
    assert n - mps == mps * (q - 1) + r;
    ModIs(n - mps, mps, q - 1, r);
  }

  /** A payload ends in a short packet: one shorter than the packet size, empty if need be. Nothing
      but header and payload is in the packets. */
  lemma LastPacketIsShort(m: Message, cfg: WireConfig, mps: nat)
    requires mps > 0 && 0 < |m.payload| <= U32_MAX
    ensures var ps := MessagePackets(m, cfg, mps);
            && |ps[|ps| - 1]| < mps
            && Flatten(ps) == EncodeHeader(HeaderOf(m, cfg.computeChecksum).value) + m.payload
  {
    var header := EncodeHeader(HeaderOf(m, cfg.computeChecksum).value);
    TransferIsFull(header, mps);
    TransferIsFull(m.payload, mps);
    FlattenAppend(Packets(header, mps) + Packets(m.payload, mps), Ending(m, mps));
    FlattenAppend(Packets(header, mps), Packets(m.payload, mps));
    assert Flatten([[]]) == [] + Flatten([]);
  }

  predicate EndsShort(wire: seq<Data>, mps: nat) {
    |wire| > 0 && |wire[|wire| - 1]| < mps
  }

  lemma SentEndsShort(wire: seq<Data>, m: Message, cfg: WireConfig, mps: nat)
    requires mps > 0 && 0 < |m.payload| <= U32_MAX
    ensures EndsShort(wire + MessagePackets(m, cfg, mps), mps)
  {
    LastPacketIsShort(m, cfg, mps);
  }

  datatype SinkError = MessageTooLong | SendFailed(transfer: TransferError)

  /** An endpoint that takes `room` packets in all, if there is a limit, before a transfer fails with
      `down`. */
  class UsbSink {
    var wire: seq<Data>
    var config: WireConfig
    const mps: nat
    const room: Option<nat>
    const down: TransferError

    constructor (mps: nat, config: WireConfig, room: Option<nat>, down: TransferError)
      ensures Valid() && wire == []
      ensures this.mps == mps && this.config == config && this.room == room && this.down == down
    {
      wire, this.mps, this.config, this.room, this.down := [], mps, config, room, down;
    }

    ghost predicate Valid()
      reads this
    {
      Fits(wire, room)
    }

    /** One transfer: the host controller cuts it into packets. */
    method Write(data: Data) returns (ok: bool)
      requires mps > 0 && Valid()
      modifies `wire
      ensures Valid() && wire == Capped(old(wire) + Packets(data, mps), room)
      ensures ok == Fits(old(wire) + Packets(data, mps), room)
    {
      var rest := data;
      while |rest| > mps
        invariant wire + Packets(rest, mps) == old(wire) + Packets(data, mps) && Valid()
        decreases |rest|
      {
        assert Packets(rest, mps) == [rest[..mps]] + Packets(rest[mps..], mps);
        ok := Put(rest[..mps], Packets(rest[mps..], mps));
        if !ok {
          return false;
        }
        rest := rest[mps..];
      }
      ok := Put(rest, []);
    }

    /** One packet; `more` are those that would follow it. */
    method Put(packet: Data, ghost more: seq<Data>) returns (ok: bool)
      requires Valid()
      modifies `wire
      ensures Valid() && (ok ==> wire == old(wire) + [packet])
      ensures ok ==> wire + more == old(wire) + ([packet] + more)
      ensures !ok ==> !Fits(old(wire) + ([packet] + more), room)
      ensures !ok ==> wire == Capped(old(wire) + ([packet] + more), room)
    {
      ok := Fits(wire + [packet], room);
      CappedTwice(wire, [packet], more, room);
      if ok {
        wire := wire + [packet];
      } else {
        assert (wire + [packet])[..|wire|] == wire;
      }
    }

    /** Header, payload and a zero-length packet where it is needed, as far as the transfers go. */
    method Send(m: Message) returns (r: Result<(), SinkError>)
      requires mps > 0 && Valid()
      modifies `wire
      ensures Valid()
      ensures |m.payload| > U32_MAX ==> r == Err(MessageTooLong) && wire == old(wire)
      ensures |m.payload| <= U32_MAX ==>
                var all := old(wire) + MessagePackets(m, config, mps);
                && wire == Capped(all, room)
                && r == if Fits(all, room) then Ok(()) else Err(SendFailed(down))
      ensures r.Ok? && m.payload != [] ==> EndsShort(wire, mps)
    {
      var header := HeaderOf(m, config.computeChecksum);
      if header.None? {
        return Err(MessageTooLong);
      }
      ghost var head, body := Packets(EncodeHeader(header.value), mps), Packets(m.payload, mps);
      SentInParts(wire, head, body, Ending(m, mps), room);
      if m.payload != [] {
        SentEndsShort(wire, m, config, mps);
      }
      var ok := Write(EncodeHeader(header.value));
      if !ok {
        return Err(SendFailed(down));
      }
      if m.payload == [] {
        return Ok(());
      }
      ok := Write(m.payload);
      if !ok {
        return Err(SendFailed(down));
      }
      if |m.payload| % mps == 0 {
        assert Packets([], mps) == [[]];
        ok := Write([]);
        return if ok then Ok(()) else Err(SendFailed(down));
      }
      assert old(wire) + head + body + [] == old(wire) + head + body;
      return Ok(());
    }
  }

  /** Three transfers after one another, stopping at the first that fails. */
  lemma SentInParts(wire: seq<Data>, head: seq<Data>, body: seq<Data>, end: seq<Data>, room: Option<nat>)
    ensures var all := wire + (head + body + end);
            && all == wire + head + body + end
            && (Fits(all, room) ==> Fits(wire + head + body, room))
            && (Fits(wire + head + body, room) ==> Fits(wire + head, room))
            && (!Fits(wire + head + body, room) ==> Capped(wire + head + body, room) == Capped(all, room))
            && (!Fits(wire + head, room) ==> Capped(wire + head, room) == Capped(all, room))
  {
    FourRegrouped(wire, head, body, end);
    CappedTwice(wire, head, body + end, room);
    CappedTwice(wire + head, body, end, room);
    Regrouped(wire + head, body, end);
  }

  class UsbSource {
    var packets: seq<Data>
    var config: WireConfig
    const mps: nat
    const down: TransferError

    constructor (mps: nat, config: WireConfig, packets: seq<Data>, down: TransferError)
      ensures this.packets == packets && this.mps == mps && this.config == config && this.down == down
    {
      this.mps, this.config, this.packets, this.down := mps, config, packets, down;
    }

    /** One request: packets are taken until it is full or one of them is short. A request that the
        packets do not complete is the transfer that fails. */
    method Read(len: nat) returns (r: Option<Data>)
      requires mps > 0
      modifies `packets
      ensures match ReadAtMost(old(packets), len, mps)
              case None => r == None
              case Some(c) => r == Some(c.data) && packets == c.rest && |packets| < old(|packets|)
    {
      var request: nat := Rounded(len, mps);
      BulkReadConsumes(packets, request, mps);
      ghost var all, asked := packets, request;
      var buffer: Data := [];
      while true
        invariant match BulkRead(all, asked, mps)
                  case None => BulkRead(packets, request, mps) == None
                  case Some(c) =>
                    var d := BulkRead(packets, request, mps);
                    d.Some? && c.data == buffer + d.value.data && c.rest == d.value.rest
        decreases |packets|
      {
        if packets == [] {
          return None;
        }
        var p := packets[0];
        packets := packets[1..];
        buffer := buffer + p;
        if |p| < mps || request <= mps {
          return Some(buffer);
        }
        request := request - mps;
      }
    }

    method ReadExact(len: nat) returns (r: Result<Data, UsbError>)
      requires mps > 0
      modifies `packets
      ensures match ReadPayload(old(packets), down, len, mps)
              case Err(e) => r == Err(e)
              case Ok(c) => r == Ok(c.data) && packets == c.rest
    {
      ghost var all := packets;
      var first := Read(len);
      if first.None? {
        return Err(TransferFailed(down));
      }
      var buffer := first.value;
      while |buffer| < len
        invariant ReadPayload(all, down, len, mps) == ReadRest(packets, down, buffer, len, mps)
        decreases |packets|
      {
        var more := Read(len - |buffer|);
        if more.None? {
          return Err(TransferFailed(down));
        }
        if more.value == [] {
          return Err(ShortPayload);
        }
        buffer := buffer + more.value;
      }
      if |buffer| != len {
        return Err(WrongLength);
      }
      return Ok(buffer);
    }

    method Recv() returns (r: Result<Message, UsbError>)
      requires mps > 0
      modifies `packets
      ensures match RecvMessage(old(packets), down, config, mps)
              case Err(e) => r == Err(e)
              case Ok(d) => r == Ok(d.message) && packets == d.rest
    {
      ghost var all := packets;
      var head: Data := [];
      while true
        invariant ReadHead(all, mps) == ReadHead(packets, mps)
        invariant config == old(config)
        decreases |packets|
      {
        var buffer := Read(HEADER_LEN);
        if buffer.None? {
          return Err(TransferFailed(down));
        }
        if buffer.value != [] {
          head := buffer.value;
          break;
        }
      }
      assert ReadHead(all, mps) == Some(Completed(head, packets));
      if |head| != HEADER_LEN {
        return Err(TruncatedHead);
      }
      var decoded := DecodeHeader(head, config.maxPayload);
      if decoded.Err? {
        return Err(HeadError(decoded.error));
      }
      var header := decoded.value;
      var payload: Data := [];
      if header.dataLength != 0 {
        var body := ReadExact(header.dataLength);
        if body.Err? {
          return Err(body.error);
        }
        payload := body.value;
      }
      var sum := ComputeChecksum(payload);
      if config.verifyChecksum && header.dataCheck != sum {
        return Err(BadChecksum);
      }
      return Ok(WithPayload(header, payload));
    }
  }
}
