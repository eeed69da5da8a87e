/** Messages over a byte stream. `ParseMessage` reads one from the whole remaining stream; the
    reader object gets the same bytes in fragments of any size. */
module Framed {
  import opened Bytes
  import opened Wire
  import opened WireCodec

  datatype WireConfig = WireConfig(computeChecksum: bool, verifyChecksum: bool, maxPayload: u32)

  const INITIAL := WireConfig(true, false, MAX_PAYLOAD)

  function Negotiated(version: u32, maxPayload: u32): WireConfig {
    var checksum := version < VERSION_SKIP_CHECKSUM;
    WireConfig(checksum, checksum, maxPayload)
  }

  datatype RecvError =
    | Disconnected | TruncatedHeader | TruncatedPayload | ReadFailed
    | BadHeader(error: WireError) | ChecksumMismatch

  datatype Parsed = Parsed(message: Message, rest: Data)

  /** How a byte stream ends: at its end of file, or with an error of the operating system. */
  datatype StreamEnd = EndOfFile | Failure

  /** The error of a read that wanted more than there was. */
  function Cut(end: StreamEnd, truncated: RecvError): RecvError {
    if end.Failure? then ReadFailed else truncated
  }

  function ParseMessage(s: Data, end: StreamEnd, cfg: WireConfig): Result<Parsed, RecvError> {
    if s == [] then Err(Cut(end, Disconnected))
    else if |s| < HEADER_LEN then Err(Cut(end, TruncatedHeader))
    else
      match DecodeHeader(s[..HEADER_LEN], cfg.maxPayload)
      case Err(e) => Err(BadHeader(e))
      case Ok(h) =>
        var body := s[HEADER_LEN..];
        if |body| < h.dataLength then Err(Cut(end, TruncatedPayload))
        else
          var m := WithPayload(h, body[..h.dataLength]);
          if cfg.verifyChecksum && h.dataCheck != Checksum(m.payload) then Err(ChecksumMismatch)
          else Ok(Parsed(m, body[h.dataLength..]))
  }

  /** What a writer puts on the stream for one message. */
  function Frame(m: Message, cfg: WireConfig): Data
    requires |m.payload| <= U32_MAX
  {
    EncodeHeader(HeaderOf(m, cfg.computeChecksum).value) + m.payload
  }

  /** Fragments as the operating system delivers them: none is empty, and behind them is `end`. */
  class Source {
    var fragments: seq<Data>
    const end: StreamEnd

    ghost predicate Valid()
      reads this
    {
      forall k :: 0 <= k < |fragments| ==> fragments[k] != []
    }

    constructor (fragments: seq<Data>, end: StreamEnd)
      requires forall k :: 0 <= k < |fragments| ==> fragments[k] != []
      ensures Valid() && this.fragments == fragments && this.end == end
    {
      this.fragments, this.end := fragments, end;
    }

    /** `read`: what is at hand, at most `n` bytes; nothing, or the error, only at the end. */
    method Read(n: nat) returns (b: Data, ok: bool)
      requires Valid() && n > 0
      modifies this
      ensures Valid() && |b| <= n && Flatten(old(fragments)) == b + Flatten(fragments)
      ensures b == [] <==> old(Flatten(fragments)) == []
      ensures b == [] ==> fragments == []
      ensures ok <==> b != [] || end.EndOfFile?
    {
      if fragments == [] {
        return [], end.EndOfFile?;
      }
      ok := true;
      var f := fragments[0];
      if |f| <= n {
        b := f;
        fragments := fragments[1..];
      } else {
        b := f[..n];
        assert f == f[..n] + f[n..] && f[n..] != [];
        fragments := [f[n..]] + fragments[1..];
      }
    }

    /** `read_exact`: the error is an early end of file, or that of a read. */
    method ReadExact(n: nat) returns (b: Data, error: Option<StreamEnd>)
      requires Valid()
      modifies this
      ensures Valid() && Flatten(old(fragments)) == b + Flatten(fragments)
      ensures error == if |old(Flatten(fragments))| >= n then None else Some(end)
      ensures error.None? ==> |b| == n
    {
      b := [];
      while |b| < n
        invariant Valid() && |b| <= n && Flatten(old(fragments)) == b + Flatten(fragments)
        decreases n - |b|
      {
        var more, ok := Read(n - |b|);
        if !ok {
          return b, Some(Failure);
        }
        if more == [] {
          return b, Some(EndOfFile);
        }
        b := b + more;
      }
      error := None;
    }
  }

  lemma Front(a: Data, b: Data)
    ensures (a + b)[..|a|] == a && (a + b)[|a|..] == b
  {
  }

  class FramedReader {
    const inner: Source
    var config: WireConfig

    constructor (inner: Source, config: WireConfig)
      ensures this.inner == inner && this.config == config
    {
      this.inner, this.config := inner, config;
    }

    method Configure(config: WireConfig)
      modifies this
      ensures this.config == config
    {
      this.config := config;
    }

    /** The fragmentation makes no difference: a message or an error comes out as from the whole
        stream, and after a message the rest of the stream is left. */
    method Recv() returns (r: Result<Message, RecvError>)
      requires inner.Valid()
      modifies inner
      ensures inner.Valid()
      ensures match ParseMessage(old(Flatten(inner.fragments)), inner.end, config)
              case Err(e) => r == Err(e)
              case Ok(p) => r == Ok(p.message) && Flatten(inner.fragments) == p.rest
    {
      ghost var s := Flatten(inner.fragments);
      var head, ok := inner.Read(HEADER_LEN);
      if !ok {
        return Err(ReadFailed);
      }
      if head == [] {
        return Err(Disconnected);
      }
      if |head| < HEADER_LEN {
        var more, early := inner.ReadExact(HEADER_LEN - |head|);
        if early.Some? {
          return Err(Cut(early.value, TruncatedHeader));
        }
        head := head + more;
      }
      assert s == head + Flatten(inner.fragments);
      Front(head, Flatten(inner.fragments));
      var decoded := DecodeHeader(head, config.maxPayload);
      if decoded.Err? {
        return Err(BadHeader(decoded.error));
      }
      var header := decoded.value;
      ghost var body := Flatten(inner.fragments);
      var payload, early := inner.ReadExact(header.dataLength);
      if early.Some? {
        return Err(Cut(early.value, TruncatedPayload));
      }
      Front(payload, Flatten(inner.fragments));
      var sum := ComputeChecksum(payload);
      if config.verifyChecksum && header.dataCheck != sum {
        return Err(ChecksumMismatch);
      }
      return Ok(WithPayload(header, payload));
    }
  }

  datatype SendError = PayloadTooLong | WriteFailed

  /** A byte stream that takes `room` bytes in all, if there is a limit, before its writes fail, and
      whose flush may fail. */
  class Target {
    var written: Data
    const room: Option<nat>
    const flushes: bool

    constructor (room: Option<nat>, flushes: bool)
      ensures written == [] && this.room == room && this.flushes == flushes
    {
      written, this.room, this.flushes := [], room, flushes;
    }

    /** `write_all`: what does not fit is not written. */
    method WriteAll(b: Data) returns (ok: bool)
      modifies this
      ensures written == Capped(old(written) + b, room) && ok == Fits(old(written) + b, room)
    {
      ok := Fits(written + b, room);
      written := Capped(written + b, room);
    }
  }

  class FramedWriter {
    const inner: Target
    var config: WireConfig

    constructor (inner: Target, config: WireConfig)
      ensures this.inner == inner && this.config == config
    {
      this.inner, this.config := inner, config;
    }

    /** Nothing is written if the payload is longer than 32 bits can say. Otherwise the frame is
        written as far as the stream takes it; it succeeds exactly if that is all and is flushed. */
    method Send(m: Message) returns (r: Result<(), SendError>)
      modifies inner
      ensures |m.payload| > U32_MAX ==> r == Err(PayloadTooLong) && inner.written == old(inner.written)
      ensures |m.payload| <= U32_MAX ==>
                var all := old(inner.written) + Frame(m, config);
                && inner.written == Capped(all, inner.room)
                && r == if Fits(all, inner.room) && inner.flushes then Ok(()) else Err(WriteFailed)
    {
      var header := HeaderOf(m, config.computeChecksum);
      if header.None? {
        return Err(PayloadTooLong);
      }
      var bytes := EncodeHeader(header.value);
      CappedTwice(inner.written, bytes, m.payload, inner.room);
      var ok := inner.WriteAll(bytes);
      if !ok {
        return Err(WriteFailed);
      }
      if m.payload != [] {
        ok := inner.WriteAll(m.payload);
        if !ok {
          return Err(WriteFailed);
        }
      }
      return if inner.flushes then Ok(()) else Err(WriteFailed);
    }
  }

  predicate Within(m: Message, cfg: WireConfig) {
    |m.payload| <= U32_MAX && |m.payload| <= Min(cfg.maxPayload, MAX_PAYLOAD)
  }

  predicate AllWithin(ms: seq<Message>, cfg: WireConfig) {
    forall k :: 0 <= k < |ms| ==> Within(ms[k], cfg)
  }

  lemma FrameSplits(m: Message, cfg: WireConfig, tail: Data)
    requires |m.payload| <= U32_MAX
    ensures var s, h := Frame(m, cfg) + tail, HeaderOf(m, cfg.computeChecksum).value;
            |s| >= HEADER_LEN && s[..HEADER_LEN] == EncodeHeader(h) && s[HEADER_LEN..] == m.payload + tail
  {
  }

  /** The bytes of a framed message. */
  lemma FrameLayout(m: Message, cfg: WireConfig)
    requires |m.payload| <= U32_MAX
    ensures var b := Frame(m, cfg);
            && |b| == 24 + |m.payload| && b[24..] == m.payload
            && U32At(b, 4) == m.arg0 && U32At(b, 8) == m.arg1 && U32At(b, 12) == |m.payload|
            && U32At(b, 16) == if cfg.computeChecksum then Sum(m.payload) % 0x1_0000_0000 else 0
  {
    var h := HeaderOf(m, cfg.computeChecksum).value;
    var b := Frame(m, cfg);
    HeaderLayout(h);
    ChecksumIsSum(m.payload);
    Front(EncodeHeader(h), m.payload);
    WordInFront(EncodeHeader(h), m.payload, 4);
    WordInFront(EncodeHeader(h), m.payload, 8);
    WordInFront(EncodeHeader(h), m.payload, 12);
    WordInFront(EncodeHeader(h), m.payload, 16);
  }

  lemma WordInFront(a: Data, b: Data, at: nat)
    requires at + 4 <= |a|
    ensures U32At(a + b, at) == U32At(a, at)
  {
    assert (a + b)[at..at + 4] == a[at..at + 4];
  }

  /** An accepted message is what the bytes say: arguments, length and payload are read from where they
      are, and the checksum is right if it is looked at. */
  lemma ParsedIsFrame(s: Data, end: StreamEnd, cfg: WireConfig)
    requires ParseMessage(s, end, cfg).Ok?
    ensures var p := ParseMessage(s, end, cfg).value;
            var n := |p.message.payload|;
            && |s| >= 24 + n && U32At(s, 12) == n <= cfg.maxPayload && n <= 0x10_0000
            && Code(p.message.command) == U32At(s, 0)
            && p.message.arg0 == U32At(s, 4) && p.message.arg1 == U32At(s, 8)
            && p.message.payload == s[24..24 + n] && p.rest == s[24 + n..]
            && (cfg.verifyChecksum ==> U32At(s, 16) == Sum(p.message.payload) % 0x1_0000_0000)
  {
    var p := ParseMessage(s, end, cfg).value;
    var h := DecodeHeader(s[..HEADER_LEN], cfg.maxPayload).value;
    DecodedFields(s[..HEADER_LEN], cfg.maxPayload);
    ChecksumIsSum(p.message.payload);
    assert s == s[..HEADER_LEN] + s[HEADER_LEN..];
    WordInFront(s[..HEADER_LEN], s[HEADER_LEN..], 0);
    WordInFront(s[..HEADER_LEN], s[HEADER_LEN..], 4);
    WordInFront(s[..HEADER_LEN], s[HEADER_LEN..], 8);
    WordInFront(s[..HEADER_LEN], s[HEADER_LEN..], 12);
    WordInFront(s[..HEADER_LEN], s[HEADER_LEN..], 16);
  }

  lemma DecodedFields(b: Data, maxPayload: u32)
    requires |b| == HEADER_LEN && DecodeHeader(b, maxPayload).Ok?
    ensures var h := DecodeHeader(b, maxPayload).value;
            && Code(h.command) == U32At(b, 0) && h.arg0 == U32At(b, 4) && h.arg1 == U32At(b, 8)
            && h.dataLength == U32At(b, 12) <= maxPayload && h.dataLength <= 0x10_0000
            && h.dataCheck == U32At(b, 16)
  {
    CodesRoundTrip(DecodeHeader(b, maxPayload).value.command, U32At(b, 0));
  }

  /** A framed message within the limit is read back, with nothing of what follows it, exactly if
      the reader does not check what the writer did not compute. */
  lemma FrameRoundTrip(m: Message, w: WireConfig, r: WireConfig, tail: Data, end: StreamEnd)
    requires Within(m, r)
    ensures ParseMessage(Frame(m, w) + tail, end, r) ==
            if r.verifyChecksum && !w.computeChecksum && Checksum(m.payload) != 0 then Err(ChecksumMismatch)
            else Ok(Parsed(m, tail))
  {
    var h := HeaderOf(m, w.computeChecksum).value;
    FrameSplits(m, w, tail);
    HeaderRoundTrip(h, r.maxPayload);
    assert (m.payload + tail)[..|m.payload|] == m.payload && (m.payload + tail)[|m.payload|..] == tail;
  }

  function FrameAll(ms: seq<Message>, cfg: WireConfig): Data
    requires AllWithin(ms, cfg)
  {
    if ms == [] then [] else Frame(ms[0], cfg) + FrameAll(ms[1..], cfg)
  }

  /** Messages up to the first error, and that error. */
  function ParseAll(s: Data, end: StreamEnd, cfg: WireConfig): (seq<Message>, RecvError)
    decreases |s|
  {
    match ParseMessage(s, end, cfg)
    case Err(e) => ([], e)
    case Ok(p) =>
      var (ms, e) := ParseAll(p.rest, end, cfg);
      ([p.message] + ms, e)
  }

  /** The error for a message of which `k` bytes are there. */
  function CutAt(k: nat, end: StreamEnd): RecvError {
    Cut(end, if k == 0 then Disconnected else if k < HEADER_LEN then TruncatedHeader else TruncatedPayload)
  }

  /** A reader and a writer under one configuration reproduce every list of messages, and the
      first `k` bytes of a further message, if any, give the error of the cut and nothing else. */
  lemma {:induction false} StreamRoundTrip(ms: seq<Message>, cfg: WireConfig, last: Message, k: nat, end: StreamEnd)
    requires AllWithin(ms, cfg) && Within(last, cfg) && k < |Frame(last, cfg)|
    requires cfg.verifyChecksum ==> cfg.computeChecksum
    ensures ParseAll(FrameAll(ms, cfg) + Frame(last, cfg)[..k], end, cfg) ==
            (ms, if end == Failure then ReadFailed
                 else if k == 0 then Disconnected
                 else if k < 24 then TruncatedHeader
                 else TruncatedPayload)
  {
    var cut := Frame(last, cfg)[..k];
    if ms == [] {
      assert FrameAll(ms, cfg) + cut == cut;
      CutMessage(last, cfg, k, end);
    } else {
      var tail := FrameAll(ms[1..], cfg) + cut;
      StreamRoundTrip(ms[1..], cfg, last, k, end);
      FirstOfStream(ms[0], cfg, tail, end);
      Regrouped(Frame(ms[0], cfg), FrameAll(ms[1..], cfg), cut);
      assert [ms[0]] + ms[1..] == ms;
    }
  }

  lemma FirstOfStream(m: Message, cfg: WireConfig, tail: Data, end: StreamEnd)
    requires Within(m, cfg) && (cfg.verifyChecksum ==> cfg.computeChecksum)
    ensures ParseAll(Frame(m, cfg) + tail, end, cfg)
            == ([m] + ParseAll(tail, end, cfg).0, ParseAll(tail, end, cfg).1)
  {
    FrameRoundTrip(m, cfg, cfg, tail, end);
  }

  lemma CutMessage(m: Message, cfg: WireConfig, k: nat, end: StreamEnd)
    requires Within(m, cfg) && k < |Frame(m, cfg)|
    ensures ParseMessage(Frame(m, cfg)[..k], end, cfg) == Err(CutAt(k, end))
  {
    if k >= HEADER_LEN {
      var h := HeaderOf(m, cfg.computeChecksum).value;
      assert Frame(m, cfg)[..k][..HEADER_LEN] == EncodeHeader(h);
      HeaderRoundTrip(h, cfg.maxPayload);
    }
  }

  /** With checksums on, a message with one payload byte changed is never accepted. */
  lemma CorruptionDetected(m: Message, cfg: WireConfig, tail: Data, end: StreamEnd, k: nat, b: byte)
    requires Within(m, cfg) && cfg.computeChecksum && cfg.verifyChecksum
    requires k < |m.payload| && m.payload[k] != b
    ensures ParseMessage(Frame(m, cfg)[HEADER_LEN + k := b] + tail, end, cfg) == Err(ChecksumMismatch)
  {
    var h := HeaderOf(m, true).value;
    var bad := m.payload[k := b];
    var s := Frame(m, cfg)[HEADER_LEN + k := b] + tail;
    assert s == EncodeHeader(h) + (bad + tail);
    assert s[..HEADER_LEN] == EncodeHeader(h) && s[HEADER_LEN..] == bad + tail;
    HeaderRoundTrip(h, cfg.maxPayload);
    assert (bad + tail)[..|bad|] == bad;
    OneByteChangeDetected(m.payload, k, b);
  }
}
