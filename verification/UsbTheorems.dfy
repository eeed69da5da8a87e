/** The reader of bulk packets finds every message, and stops where it ends. */
module UsbTheorems {
  import opened Bytes
  import opened Wire
  import opened WireCodec
  import opened Framed
  import opened Usb

  /** The smallest multiple of `mps` that is at least `len`. */
  lemma RoundedUp(len: nat, mps: nat) returns (q: nat)
    requires mps > 0 && len > 0
    ensures q > 0 && Rounded(len, mps) == q * mps
    ensures len <= q * mps < len + mps
  {
    q := (len + mps - 1) / mps;
    assert len + mps - 1 == q * mps + (len + mps - 1) % mps;
  }

  /** A request is the smallest number of whole packets, at least one, that has room for `len`. */
  lemma RequestIsWhole(len: nat, mps: nat)
    requires mps > 0
    ensures var n := Rounded(len, mps); n % mps == 0 && n >= mps && n >= len && (n > mps ==> n - mps < len)
  {
    if len == 0 {
      ModIs(mps, mps, 1, 0);
    } else {
      var q := RoundedUp(len, mps);
      Monotone(1, q, mps);
      ModIs(q * mps, mps, q, 0);
    }
  }

  lemma OnlyOne(q: nat, mps: nat, len: nat)
    requires q > 0 && mps > 0 && len <= mps && q * mps < len + mps
    ensures q == 1
  {
    Monotone(2, q, mps);
  }

  lemma Monotone(a: nat, b: nat, m: nat)
    ensures a <= b ==> a * m <= b * m
  {
    assert b * m == a * m + (b - a) * m;
  }

  lemma OneLess(q: nat, mps: nat)
    ensures (q - 1) * mps == q * mps - mps
  {
  }

  /** A request of `q` packets takes exactly a transfer that needs `q` packets. */
  lemma {:induction false} ReadTransfer(data: Data, tail: seq<Data>, q: nat, mps: nat)
    requires mps > 0 && q > 0 && |data| <= q * mps < |data| + mps
    ensures BulkRead(Packets(data, mps) + tail, q * mps, mps) == Some(Completed(data, tail))
    decreases |data|
  {
    var packets := Packets(data, mps) + tail;
    if |data| > mps {
      OneLess(q, mps);
      ReadTransfer(data[mps..], tail, q - 1, mps);
      assert packets[1..] == Packets(data[mps..], mps) + tail;
      assert data == data[..mps] + data[mps..];
    } else {
      OnlyOne(q, mps, |data|);
      assert packets[0] == data && packets[1..] == tail;
    }
  }

  /** Packets that a peer may cut a payload into. */
  predicate Split(parts: seq<Data>, mps: nat) {
    forall k :: 0 <= k < |parts| ==> 0 < |parts[k]| <= mps
  }

  /** A full packet is taken, and the rest of the request is one packet less. */
  lemma FullPacket(packets: seq<Data>, q: nat, mps: nat, c: Completed)
    requires mps > 0 && q > 0 && packets != [] && |packets[0]| >= mps && q * mps > mps
    requires BulkRead(packets[1..], (q - 1) * mps, mps) == Some(c)
    ensures BulkRead(packets, q * mps, mps) == Some(Completed(packets[0] + c.data, c.rest))
  {
    OneLess(q, mps);
  }

  lemma FirstParts(parts: seq<Data>, k: nat)
    requires k < |parts|
    ensures Flatten(parts[..k + 1]) == parts[0] + Flatten(parts[1..][..k]) && parts[1..][k..] == parts[k + 1..]
  {
    assert parts[..k + 1][0] == parts[0] && parts[..k + 1][1..] == parts[1..][..k];
  }

  /** A request of `q` packets takes some of the parts of a payload that needs `q` packets, at least
      one, and nothing behind them. */
  lemma {:induction false} ReadParts(parts: seq<Data>, tail: seq<Data>, q: nat, mps: nat) returns (k: nat)
    requires mps > 0 && q > 0 && parts != [] && Split(parts, mps)
    requires |Flatten(parts)| <= q * mps < |Flatten(parts)| + mps
    ensures 0 < k <= |parts|
    ensures BulkRead(parts + tail, q * mps, mps) == Some(Completed(Flatten(parts[..k]), parts[k..] + tail))
    decreases |parts|
  {
    var p := parts[0];
    assert (parts + tail)[0] == p && (parts + tail)[1..] == parts[1..] + tail;
    FirstParts(parts, 0);
    assert p + Flatten([]) == p;
    k := 1;
    if |p| >= mps && q * mps > mps {
      OneLess(q, mps);
      if |parts| == 1 {
        assert parts == parts[..1];
        OnlyOne(q, mps, mps);
      } else {
        assert Flatten(parts[1..]) != [] by {
          assert parts[1..][0] == parts[1];
        }
        k := ReadParts(parts[1..], tail, q - 1, mps);
        FullPacket(parts + tail, q, mps, Completed(Flatten(parts[1..][..k]), parts[1..][k..] + tail));
        FirstParts(parts, k);
        k := k + 1;
      }
    }
  }

  lemma {:induction false} FlattenSplit(parts: seq<Data>, k: nat)
    requires k <= |parts|
    ensures Flatten(parts) == Flatten(parts[..k]) + Flatten(parts[k..])
  {
    assert parts == parts[..k] + parts[k..];
    FlattenAppend(parts[..k], parts[k..]);
  }

  lemma NonEmptyFlatten(parts: seq<Data>, mps: nat)
    requires Split(parts, mps) && parts != []
    ensures Flatten(parts) != []
  {
    assert parts[0] != [];
  }

  /** One request for a whole payload takes some of its parts. */
  lemma ReadSome(parts: seq<Data>, tail: seq<Data>, mps: nat) returns (k: nat)
    requires mps > 0 && Split(parts, mps) && parts != []
    ensures 0 < k <= |parts| && Split(parts[k..], mps)
    ensures ReadAtMost(parts + tail, |Flatten(parts)|, mps) == Some(Completed(Flatten(parts[..k]), parts[k..] + tail))
    ensures Flatten(parts) == Flatten(parts[..k]) + Flatten(parts[k..]) && Flatten(parts[..k]) != []
  {
    NonEmptyFlatten(parts, mps);
    var q := RoundedUp(|Flatten(parts)|, mps);
    k := ReadParts(parts, tail, q, mps);
    FlattenSplit(parts, k);
    NonEmptyFlatten(parts[..k], mps);
  }

  /** However the payload is cut, `read_exact` collects all of it and nothing else. */
  lemma {:induction false} RestCollected(parts: seq<Data>, tail: seq<Data>, down: TransferError, got: Data, mps: nat)
    requires mps > 0 && Split(parts, mps)
    ensures ReadRest(parts + tail, down, got, |got| + |Flatten(parts)|, mps)
            == Ok(Completed(got + Flatten(parts), tail))
    decreases |parts|
  {
    if parts == [] {
      assert parts + tail == tail && got + Flatten(parts) == got;
    } else {
      var k := ReadSome(parts, tail, mps);
      RestCollected(parts[k..], tail, down, got + Flatten(parts[..k]), mps);
      Regrouped(got, Flatten(parts[..k]), Flatten(parts[k..]));
    }
  }

  lemma PayloadCollected(parts: seq<Data>, tail: seq<Data>, down: TransferError, mps: nat)
    requires mps > 0 && Split(parts, mps) && parts != []
    ensures ReadPayload(parts + tail, down, |Flatten(parts)|, mps) == Ok(Completed(Flatten(parts), tail))
  {
    var k := ReadSome(parts, tail, mps);
    RestCollected(parts[k..], tail, down, Flatten(parts[..k]), mps);
  }

  function Zlps(n: nat): seq<Data> {
    if n == 0 then [] else [[]] + Zlps(n - 1)
  }

  lemma {:induction false} ZlpsSkipped(n: nat, rest: seq<Data>, mps: nat)
    requires mps > 0
    ensures ReadHead(Zlps(n) + rest, mps) == ReadHead(rest, mps)
  {
    if n == 0 {
      assert Zlps(0) + rest == rest;
    } else {
      var packets := Zlps(n) + rest;
      assert packets[0] == [] && packets[1..] == Zlps(n - 1) + rest;
      ZlpsSkipped(n - 1, rest, mps);
    }
  }

  /** A message as a peer may send it: any number of zero-length packets in front, the header as one
      transfer, the payload in any non-empty packets. */
  datatype Sending = Sending(message: Message, zlps: nat, parts: seq<Data>)

  predicate Sendable(x: Sending, cfg: WireConfig, mps: nat) {
    Within(x.message, cfg) && Split(x.parts, mps) && Flatten(x.parts) == x.message.payload
  }

  function PacketsOf(x: Sending, cfg: WireConfig, mps: nat): seq<Data>
    requires mps > 0 && |x.message.payload| <= U32_MAX
  {
    Zlps(x.zlps) + (Packets(EncodeHeader(HeaderOf(x.message, cfg.computeChecksum).value), mps) + x.parts)
  }

  /** A header and a payload of the announced length are received, whatever the checksum field says if
      it is not looked at; if it is, a wrong one is the error. */
  lemma HeaderThenPayload(h: Header, parts: seq<Data>, cfg: WireConfig, tail: seq<Data>, down: TransferError, mps: nat)
    requires mps > 0 && Split(parts, mps) && h.dataLength == |Flatten(parts)|
    requires h.dataLength <= cfg.maxPayload && h.dataLength <= 0x10_0000
    ensures RecvMessage(Packets(EncodeHeader(h), mps) + (parts + tail), down, cfg, mps) ==
            if cfg.verifyChecksum && h.dataCheck != Sum(Flatten(parts)) % 0x1_0000_0000 then Err(BadChecksum)
            else Ok(Received(Message(h.command, h.arg0, h.arg1, Flatten(parts)), tail))
  {
    var q := RoundedUp(HEADER_LEN, mps);
    ReadTransfer(EncodeHeader(h), parts + tail, q, mps);
    HeaderRoundTrip(h, cfg.maxPayload);
    ChecksumIsSum(Flatten(parts));
    if parts == [] {
      assert parts + tail == tail;
    } else {
      NonEmptyFlatten(parts, mps);
      PayloadCollected(parts, tail, down, mps);
    }
  }

  /** One message is received as sent, and not a packet behind it is taken. */
  lemma ReceivesOne(x: Sending, cfg: WireConfig, tail: seq<Data>, down: TransferError, mps: nat)
    requires mps > 0 && Sendable(x, cfg, mps) && (cfg.verifyChecksum ==> cfg.computeChecksum)
    ensures RecvMessage(PacketsOf(x, cfg, mps) + tail, down, cfg, mps) == Ok(Received(x.message, tail))
  {
    var h := HeaderOf(x.message, cfg.computeChecksum).value;
    var header := Packets(EncodeHeader(h), mps);
    assert PacketsOf(x, cfg, mps) + tail == Zlps(x.zlps) + (header + (x.parts + tail));
    ZlpsSkipped(x.zlps, header + (x.parts + tail), mps);
    ChecksumIsSum(x.message.payload);
    HeaderThenPayload(h, x.parts, cfg, tail, down, mps);
  }

  // What is refused, and what is not.

  lemma {:induction false} ReadTakes(packets: seq<Data>, request: nat, mps: nat) returns (k: nat)
    requires mps > 0 && BulkRead(packets, request, mps).Some?
    ensures k <= |packets|
    ensures BulkRead(packets, request, mps) == Some(Completed(Flatten(packets[..k]), packets[k..]))
    decreases |packets|
  {
    var p := packets[0];
    assert Flatten(packets[..1]) == p by {
      assert packets[..1] == [p] && Flatten([p]) == p + Flatten([]);
    }
    k := 1;
    if |p| >= mps && request > mps {
      k := ReadTakes(packets[1..], request - mps, mps);
      assert packets[..k + 1][0] == p && packets[..k + 1][1..] == packets[1..][..k];
      assert packets[1..][k..] == packets[k + 1..];
      k := k + 1;
    }
  }

  lemma TakenTwice(packets: seq<Data>, j: nat, k: nat)
    requires j <= |packets| && k <= |packets| - j
    ensures Flatten(packets[..j + k]) == Flatten(packets[..j]) + Flatten(packets[j..][..k])
    ensures packets[j..][k..] == packets[j + k..]
  {
    assert packets[..j + k] == packets[..j] + packets[j..][..k];
    FlattenAppend(packets[..j], packets[j..][..k]);
  }

  lemma {:induction false} RestTakes(packets: seq<Data>, down: TransferError, got: Data, len: nat, mps: nat)
    returns (k: nat)
    requires mps > 0 && ReadRest(packets, down, got, len, mps).Ok?
    ensures k <= |packets|
    ensures var c := ReadRest(packets, down, got, len, mps).value;
            c.data == got + Flatten(packets[..k]) && c.rest == packets[k..] && |c.data| == len
    decreases |packets|
  {
    if |got| == len {
      k := 0;
      assert got + [] == got;
    } else {
      var request := Rounded(len - |got|, mps);
      var j := ReadTakes(packets, request, mps);
      BulkReadConsumes(packets, request, mps);
      var more := Flatten(packets[..j]);
      var n := RestTakes(packets[j..], down, got + more, len, mps);
      TakenTwice(packets, j, n);
      Regrouped(got, more, Flatten(packets[j..][..n]));
      k := j + n;
    }
  }

  lemma {:induction false} HeadTakes(packets: seq<Data>, mps: nat) returns (k: nat)
    requires mps > 0 && ReadHead(packets, mps).Some?
    ensures k <= |packets|
    ensures ReadHead(packets, mps) == Some(Completed(Flatten(packets[..k]), packets[k..]))
    decreases |packets|
  {
    var request := Rounded(HEADER_LEN, mps);
    k := ReadTakes(packets, request, mps);
    BulkReadConsumes(packets, request, mps);
    if Flatten(packets[..k]) == [] {
      var n := HeadTakes(packets[k..], mps);
      TakenTwice(packets, k, n);
      assert [] + Flatten(packets[k..][..n]) == Flatten(packets[k..][..n]);
      k := k + n;
    }
  }

  /** A header of 24 bytes, then exactly the payload, with the right checksum if that is looked at. */
  predicate IsFrame(b: Data, m: Message, cfg: WireConfig) {
    var n := |m.payload|;
    && |b| == 24 + n && U32At(b, 12) == n <= cfg.maxPayload && n <= 0x10_0000
    && Code(m.command) == U32At(b, 0) && m.arg0 == U32At(b, 4) && m.arg1 == U32At(b, 8) && m.payload == b[24..]
    && (cfg.verifyChecksum ==> U32At(b, 16) == Sum(m.payload) % 0x1_0000_0000)
  }

  lemma HeadAndPayload(head: Data, payload: Data, cfg: WireConfig)
    requires |head| == 24 && DecodeHeader(head, cfg.maxPayload).Ok?
    requires var h := DecodeHeader(head, cfg.maxPayload).value;
             h.dataLength == |payload| && (cfg.verifyChecksum ==> h.dataCheck == Checksum(payload))
    ensures IsFrame(head + payload, WithPayload(DecodeHeader(head, cfg.maxPayload).value, payload), cfg)
  {
    DecodedFields(head, cfg.maxPayload);
    ChecksumIsSum(payload);
    FrameWords(head, payload);
  }

  /** What was received in two parts: the header in the first `j` packets, the payload behind them. */
  predicate InTwoParts(packets: seq<Data>, j: nat, h: Header, r: Received, down: TransferError, cfg: WireConfig,
                       mps: nat)
    requires mps > 0
  {
    && j <= |packets| && |Flatten(packets[..j])| == 24
    && DecodeHeader(Flatten(packets[..j]), cfg.maxPayload) == Ok(h)
    && r.message == WithPayload(h, r.message.payload) && h.dataLength == |r.message.payload|
    && (cfg.verifyChecksum ==> h.dataCheck == Checksum(r.message.payload))
    && (h.dataLength == 0 ==> r.rest == packets[j..])
    && (h.dataLength > 0 ==>
          ReadPayload(packets[j..], down, h.dataLength, mps) == Ok(Completed(r.message.payload, r.rest)))
  }

  lemma ReceivedParts(packets: seq<Data>, down: TransferError, cfg: WireConfig, mps: nat)
    returns (j: nat, h: Header)
    requires mps > 0 && RecvMessage(packets, down, cfg, mps).Ok?
    ensures InTwoParts(packets, j, h, RecvMessage(packets, down, cfg, mps).value, down, cfg, mps)
  {
    j := HeadTakes(packets, mps);
    h := DecodeHeader(Flatten(packets[..j]), cfg.maxPayload).value;
    if h.dataLength > 0 {
      PayloadLength(packets[j..], down, h.dataLength, mps);
    }
  }

  lemma PayloadLength(packets: seq<Data>, down: TransferError, len: nat, mps: nat)
    requires mps > 0 && ReadPayload(packets, down, len, mps).Ok?
    ensures |ReadPayload(packets, down, len, mps).value.data| == len
  {
    var j := ReadTakes(packets, Rounded(len, mps), mps);
    var n := RestTakes(packets[j..], down, Flatten(packets[..j]), len, mps);
  }

  /** A received message is what the packets taken say. */
  lemma ReceivedIsFrame(packets: seq<Data>, down: TransferError, cfg: WireConfig, mps: nat) returns (k: nat)
    requires mps > 0 && RecvMessage(packets, down, cfg, mps).Ok?
    ensures var r := RecvMessage(packets, down, cfg, mps).value;
            k <= |packets| && r.rest == packets[k..] && IsFrame(Flatten(packets[..k]), r.message, cfg)
  {
    var j, h := ReceivedParts(packets, down, cfg, mps);
    k := PartsAreFrame(packets, j, h, RecvMessage(packets, down, cfg, mps).value, down, cfg, mps);
  }

  lemma PartsAreFrame(packets: seq<Data>, j: nat, h: Header, r: Received, down: TransferError, cfg: WireConfig,
                      mps: nat) returns (k: nat)
    requires mps > 0 && InTwoParts(packets, j, h, r, down, cfg, mps)
    ensures k <= |packets| && r.rest == packets[k..] && IsFrame(Flatten(packets[..k]), r.message, cfg)
  {
    var n := PayloadTakes(packets[j..], down, h.dataLength, r, mps, h);
    k := j + n;
    TakenTwice(packets, j, n);
    HeadAndPayload(Flatten(packets[..j]), r.message.payload, cfg);
  }

  lemma PayloadTakes(packets: seq<Data>, down: TransferError, len: nat, r: Received, mps: nat, h: Header)
    returns (k: nat)
    requires mps > 0 && h.dataLength == len == |r.message.payload|
    requires len == 0 ==> r.rest == packets
    requires len > 0 ==> ReadPayload(packets, down, len, mps) == Ok(Completed(r.message.payload, r.rest))
    ensures k <= |packets| && r.message.payload == Flatten(packets[..k]) && r.rest == packets[k..]
  {
    if len == 0 {
      k := 0;
    } else {
      var j := ReadTakes(packets, Rounded(len, mps), mps);
      var first := Flatten(packets[..j]);
      var n := RestTakes(packets[j..], down, first, len, mps);
      TakenTwice(packets, j, n);
      k := j + n;
    }
  }

  lemma FrameWords(head: Data, payload: Data)
    requires |head| == 24
    ensures var b := head + payload;
            && b[24..] == payload && U32At(b, 0) == U32At(head, 0) && U32At(b, 4) == U32At(head, 4)
            && U32At(b, 8) == U32At(head, 8) && U32At(b, 12) == U32At(head, 12) && U32At(b, 16) == U32At(head, 16)
  {
    WordInFront(head, payload, 0);
    WordInFront(head, payload, 4);
    WordInFront(head, payload, 8);
    WordInFront(head, payload, 12);
    WordInFront(head, payload, 16);
  }

  /** Why a message is refused: a first read that is neither empty nor a header; while the payload is
      short, an empty read or a failing transfer; a payload that turns out too long. */
  lemma RecvErrors(p: Data, rest: seq<Data>, got: Data, len: nat, down: TransferError, cfg: WireConfig, mps: nat)
    requires mps > 0
    ensures 0 < |p| < mps && |p| != 24 ==> RecvMessage([p] + rest, down, cfg, mps) == Err(TruncatedHead)
    ensures RecvMessage([], down, cfg, mps) == Err(TransferFailed(down))
    ensures |got| > len ==> ReadRest(rest, down, got, len, mps) == Err(WrongLength)
    ensures |got| < len ==> ReadRest([[]] + rest, down, got, len, mps) == Err(ShortPayload)
    ensures |got| < len ==> ReadRest([], down, got, len, mps) == Err(TransferFailed(down))
  {
    assert ([p] + rest)[0] == p && ([p] + rest)[1..] == rest;
    var zlp: seq<Data> := [[]] + rest;
    assert zlp[0] == [] && zlp[1..] == rest;
    assert BulkRead(zlp, Rounded(if |got| < len then len - |got| else 0, mps), mps) == Some(Completed([], rest));
  }

  predicate AllSendable(xs: seq<Sending>, cfg: WireConfig, mps: nat) {
    forall k :: 0 <= k < |xs| ==> Sendable(xs[k], cfg, mps)
  }

  function StreamOf(xs: seq<Sending>, cfg: WireConfig, mps: nat): seq<Data>
    requires mps > 0 && AllSendable(xs, cfg, mps)
  {
    if xs == [] then [] else assert Sendable(xs[0], cfg, mps); PacketsOf(xs[0], cfg, mps) + StreamOf(xs[1..], cfg, mps)
  }

  /** `n` calls of `recv`. */
  function RecvMany(packets: seq<Data>, n: nat, down: TransferError, cfg: WireConfig, mps: nat)
    : Result<(seq<Message>, seq<Data>), UsbError>
    requires mps > 0
    decreases n
  {
    if n == 0 then Ok(([], packets))
    else
      match RecvMessage(packets, down, cfg, mps)
      case Err(e) => Err(e)
      case Ok(first) =>
        match RecvMany(first.rest, n - 1, down, cfg, mps)
        case Err(e) => Err(e)
        case Ok(more) => Ok(([first.message] + more.0, more.1))
  }

  function Messages(xs: seq<Sending>): seq<Message> {
    if xs == [] then [] else [xs[0].message] + Messages(xs[1..])
  }

  /** Whatever splitting and padding the peer chooses, the list of messages comes out, and what is
      behind the last one is untouched. */
  lemma {:induction false} ReceivesAll(xs: seq<Sending>, cfg: WireConfig, tail: seq<Data>, down: TransferError,
                                       mps: nat)
    requires mps > 0 && AllSendable(xs, cfg, mps)
    requires cfg.verifyChecksum ==> cfg.computeChecksum
    ensures RecvMany(StreamOf(xs, cfg, mps) + tail, |xs|, down, cfg, mps) == Ok((Messages(xs), tail))
  {
    if xs == [] {
      assert StreamOf(xs, cfg, mps) + tail == tail;
    } else {
      var more := StreamOf(xs[1..], cfg, mps) + tail;
      assert StreamOf(xs, cfg, mps) + tail == PacketsOf(xs[0], cfg, mps) + more;
      ReceivesOne(xs[0], cfg, more, down, mps);
      ReceivesAll(xs[1..], cfg, tail, down, mps);
    }
  }

  function SendAll(ms: seq<Message>, cfg: WireConfig, mps: nat): seq<Data>
    requires mps > 0 && AllWithin(ms, cfg)
  {
    if ms == [] then [] else MessagePackets(ms[0], cfg, mps) + SendAll(ms[1..], cfg, mps)
  }

  /** The sink as such a peer: the zero-length packet that ends a message is in front of the next. */
  function AsSendings(ms: seq<Message>, zlps: nat, mps: nat): seq<Sending>
    requires mps > 0
  {
    if ms == [] then []
    else
      var parts := if ms[0].payload == [] then [] else Packets(ms[0].payload, mps);
      [Sending(ms[0], zlps, parts)] + AsSendings(ms[1..], |Ending(ms[0], mps)|, mps)
  }

  lemma {:induction false} PacketsAreSplit(data: Data, mps: nat)
    requires mps > 0 && data != []
    ensures Split(Packets(data, mps), mps) && Flatten(Packets(data, mps)) == data
    decreases |data|
  {
    if |data| > mps {
      PacketsAreSplit(data[mps..], mps);
      assert data == data[..mps] + data[mps..];
      assert Packets(data, mps)[1..] == Packets(data[mps..], mps);
    } else {
      assert Flatten([data]) == data + Flatten([]);
    }
  }

  function LastEnding(ms: seq<Message>, zlps: nat, mps: nat): seq<Data>
    requires mps > 0
  {
    if ms == [] then Zlps(zlps) else LastEnding(ms[1..], |Ending(ms[0], mps)|, mps)
  }

  lemma FirstSending(m: Message, zlps: nat, cfg: WireConfig, mps: nat, x: Sending)
    requires mps > 0 && Within(m, cfg)
    requires x == Sending(m, zlps, if m.payload == [] then [] else Packets(m.payload, mps))
    ensures Sendable(x, cfg, mps)
    ensures Zlps(|Ending(m, mps)|) == Ending(m, mps)
    ensures Zlps(zlps) + MessagePackets(m, cfg, mps) == PacketsOf(x, cfg, mps) + Ending(m, mps)
  {
    if m.payload != [] {
      PacketsAreSplit(m.payload, mps);
    }
    assert Zlps(1) == [[]] + Zlps(0);
    var header := Packets(EncodeHeader(HeaderOf(m, cfg.computeChecksum).value), mps);
    assert MessagePackets(m, cfg, mps) == header + x.parts + Ending(m, mps);
  }

  lemma PassEnding(z: seq<Data>, m: seq<Data>, s: seq<Data>, p: seq<Data>, e: seq<Data>, t: seq<Data>, l: seq<Data>)
    requires z + m == p + e && e + s == t + l
    ensures z + (m + s) == p + t + l
  {
    Regrouped(z, m, s);
    Regrouped(p, e, s);
    Regrouped(p, t, l);
  }

  lemma {:induction false} SinkIsSuchAPeer(ms: seq<Message>, zlps: nat, cfg: WireConfig, mps: nat)
    requires mps > 0 && AllWithin(ms, cfg)
    ensures AllSendable(AsSendings(ms, zlps, mps), cfg, mps)
    ensures |AsSendings(ms, zlps, mps)| == |ms| && Messages(AsSendings(ms, zlps, mps)) == ms
    ensures Zlps(zlps) + SendAll(ms, cfg, mps)
            == StreamOf(AsSendings(ms, zlps, mps), cfg, mps) + LastEnding(ms, zlps, mps)
    decreases |ms|
  {
    if ms == [] {
      assert Zlps(zlps) + SendAll(ms, cfg, mps) == Zlps(zlps);
    } else {
      var xs, ending := AsSendings(ms, zlps, mps), Ending(ms[0], mps);
      var more := AsSendings(ms[1..], |ending|, mps);
      SinkIsSuchAPeer(ms[1..], |ending|, cfg, mps);
      FirstSending(ms[0], zlps, cfg, mps, xs[0]);
      assert xs == [xs[0]] + more && [ms[0]] + ms[1..] == ms;
      assert xs[1..] == more;
      PassEnding(Zlps(zlps), MessagePackets(ms[0], cfg, mps), SendAll(ms[1..], cfg, mps),
                 PacketsOf(xs[0], cfg, mps), ending, StreamOf(more, cfg, mps), LastEnding(ms, zlps, mps));
      OneMoreSending(xs, cfg, mps);
    }
  }

  lemma OneMoreSending(xs: seq<Sending>, cfg: WireConfig, mps: nat)
    requires mps > 0 && xs != [] && Sendable(xs[0], cfg, mps) && AllSendable(xs[1..], cfg, mps)
    ensures AllSendable(xs, cfg, mps)
    ensures StreamOf(xs, cfg, mps) == PacketsOf(xs[0], cfg, mps) + StreamOf(xs[1..], cfg, mps)
    ensures Messages(xs) == [xs[0].message] + Messages(xs[1..])
  {
    forall k | 0 <= k < |xs| ensures Sendable(xs[k], cfg, mps) {
      if k > 0 {
        assert xs[k] == xs[1..][k - 1];
      }
    }
  }

  /** What the sink writes the source reads: the same messages, for every packet size; left over is
      only the zero-length packet behind the last one, and what others put behind it. */
  lemma UsbRoundTrip(ms: seq<Message>, cfg: WireConfig, tail: seq<Data>, down: TransferError, mps: nat)
    requires mps > 0 && AllWithin(ms, cfg) && (cfg.verifyChecksum ==> cfg.computeChecksum)
    ensures RecvMany(SendAll(ms, cfg, mps) + tail, |ms|, down, cfg, mps) == Ok((ms, LastEnding(ms, 0, mps) + tail))
  {
    var xs := AsSendings(ms, 0, mps);
    SinkIsSuchAPeer(ms, 0, cfg, mps);
    assert SendAll(ms, cfg, mps) == Zlps(0) + SendAll(ms, cfg, mps);
    Regrouped(StreamOf(xs, cfg, mps), LastEnding(ms, 0, mps), tail);
    ReceivesAll(xs, cfg, LastEnding(ms, 0, mps) + tail, down, mps);
  }

  // What a peer with other habits sees of the sink.

  /** What follows the header of a message with a payload. */
  function Behind(m: Message, cfg: WireConfig, mps: nat): seq<Data>
    requires mps > 0 && |m.payload| <= U32_MAX
  {
    MessagePackets(m, cfg, mps)[|Packets(EncodeHeader(HeaderOf(m, cfg.computeChecksum).value), mps)|..]
  }

  /** A peer that does not know the length and asks for more gets the payload as soon as it is there,
      and nothing of what follows it. */
  lemma LargerReadCompletes(m: Message, cfg: WireConfig, request: nat, next: seq<Data>, mps: nat)
    requires mps > 0 && 0 < |m.payload| <= U32_MAX && request > |m.payload|
    ensures BulkRead(Behind(m, cfg, mps) + next, request, mps) == Some(Completed(m.payload, next))
  {
    var header := Packets(EncodeHeader(HeaderOf(m, cfg.computeChecksum).value), mps);
    var body := Packets(m.payload, mps) + Ending(m, mps);
    assert MessagePackets(m, cfg, mps) == header + body;
    assert Behind(m, cfg, mps) == body;
    LargerRead(m.payload, Ending(m, mps), request, next, mps);
    Regrouped(Packets(m.payload, mps), Ending(m, mps), next);
  }

  lemma {:induction false} LargerRead(data: Data, end: seq<Data>, request: nat, next: seq<Data>, mps: nat)
    requires mps > 0 && data != [] && request > |data|
    requires end == if |data| % mps == 0 then [[]] else []
    ensures BulkRead(Packets(data, mps) + (end + next), request, mps) == Some(Completed(data, next))
    decreases |data|
  {
    var packets := Packets(data, mps) + (end + next);
    if |data| > mps {
      OnePacketLess(|data|, mps);
      LargerRead(data[mps..], end, request - mps, next, mps);
      FirstOfTransfer(data, end + next, request, Completed(data[mps..], next), mps);
    } else {
      assert packets == [data] + (end + next);
      LastRead(data, end, request, next, mps);
    }
  }

  /** A full packet is taken and the request goes on. */
  lemma TakeFull(packets: seq<Data>, request: nat, mps: nat, c: Completed)
    requires mps > 0 && packets != [] && |packets[0]| == mps && request > mps
    requires BulkRead(packets[1..], request - mps, mps) == Some(c)
    ensures BulkRead(packets, request, mps) == Some(Completed(packets[0] + c.data, c.rest))
  {
  }

  lemma FirstPacket(data: Data, tail: seq<Data>, mps: nat)
    requires 0 < mps < |data|
    ensures Packets(data, mps) + tail == [data[..mps]] + (Packets(data[mps..], mps) + tail)
  {
    Regrouped([data[..mps]], Packets(data[mps..], mps), tail);
  }

  lemma FirstOfTransfer(data: Data, tail: seq<Data>, request: nat, c: Completed, mps: nat)
    requires 0 < mps < |data| && request > mps && c.data == data[mps..]
    requires BulkRead(Packets(data[mps..], mps) + tail, request - mps, mps) == Some(c)
    ensures BulkRead(Packets(data, mps) + tail, request, mps) == Some(Completed(data, c.rest))
  {
    var first, rest := data[..mps], Packets(data[mps..], mps) + tail;
    FirstPacket(data, tail, mps);
    TakeFull([first] + rest, request, mps, c);
    assert first + c.data == data;
  }

  lemma LastRead(data: Data, end: seq<Data>, request: nat, next: seq<Data>, mps: nat)
    requires 0 < |data| <= mps && request > |data| && end == if |data| % mps == 0 then [[]] else []
    ensures BulkRead([data] + (end + next), request, mps) == Some(Completed(data, next))
  {
    var packets := [data] + (end + next);
    assert packets[0] == data && packets[1..] == end + next;
    if |data| == mps {
      ModIs(mps, mps, 1, 0);
      assert (end + next)[0] == [] && (end + next)[1..] == next;
      TakeFull(packets, request, mps, Completed([], next));
      assert data + [] == data;
    } else {
      ModIs(|data|, mps, 0, |data|);
      assert end + next == next;
    }
  }

  /** An empty payload is sent as a header alone. */
  lemma HeaderAlone(m: Message, cfg: WireConfig, mps: nat)
    requires mps > 0 && m.payload == []
    ensures Flatten(MessagePackets(m, cfg, mps)) == EncodeHeader(HeaderOf(m, cfg.computeChecksum).value)
    ensures Behind(m, cfg, mps) == []
  {
    TransferIsFull(EncodeHeader(HeaderOf(m, cfg.computeChecksum).value), mps);
  }
}
