/** The connection handshake, against any device whatsoever. A device is the answer it gives to each
    receive and whether it takes each message sent; signing is left abstract. */
module Handshake {
  import opened Bytes
  import opened Wire
  import opened Framed

  const AUTH_TOKEN: u32 := 1
  const AUTH_SIGNATURE: u32 := 2
  const AUTH_RSAPUBLICKEY: u32 := 3
  const MAX_STALE := 64

  datatype HandshakeError =
    | Transport(error: RecvError) | SendFailed | Unauthorized | KeyFailed
    | TooOld | UnexpectedAuth | UnexpectedOpen | TlsUnsupported | TooManyStale

  datatype Negotiation = Negotiation(banner: Data, version: u32, maxPayload: u32)

  /** An answer to a receive; a late one arrives only after the wait for the user has expired. */
  datatype Answer = Answer(content: Result<Message, RecvError>, late: bool)

  datatype Device = Device(answers: nat -> Answer, accepts: nat -> bool)

  /** The host's key: signing a token, and the public key's payload; both may fail. */
  datatype HostKey = HostKey(sign: Data -> Option<Data>, publicKey: Option<Data>)

  function Negotiate(m: Message): Result<Negotiation, HandshakeError> {
    if m.arg0 < VERSION_MIN then Err(TooOld)
    else
      var offered := if m.arg1 == 0 then LEGACY_MAX_PAYLOAD else m.arg1;
      Ok(Negotiation(m.payload, Min(m.arg0, VERSION), Min(offered, MAX_PAYLOAD)))
  }

  predicate Stale(m: Message) {
    m.command.Close? || m.command.Write? || m.command.Okay? || m.command.Sync?
  }

  predicate Token(m: Message) {
    m.command.Auth? && m.arg0 == AUTH_TOKEN
  }

  /** How far the exchange has got: tokens answered, stale frames skipped, receives, timed receives,
      and everything sent. */
  datatype Point = Point(tokens: nat, skipped: nat, received: nat, timed: nat, sent: seq<Message>)

  predicate Within(x: Point) {
    x.tokens <= 2 && x.skipped <= MAX_STALE
  }

  /** The outcome of a handshake, with the number of receives, how many were timed, and all sent. */
  datatype End = End(result: Result<Negotiation, HandshakeError>, received: nat, timed: nat, sent: seq<Message>)

  function Reply(tokens: nat, token: Data, key: HostKey): Option<Message> {
    var payload := if tokens == 0 then key.sign(token) else key.publicKey;
    if payload.None? then None
    else Some(Message(Auth, if tokens == 0 then AUTH_SIGNATURE else AUTH_RSAPUBLICKEY, 0, payload.value))
  }

  /** What a receive yields, under a timeout or not. */
  function Incoming(a: Answer, timed: bool): Result<Message, HandshakeError> {
    if timed && a.late then Err(Unauthorized)
    else if a.content.Err? then Err(Transport(a.content.error))
    else Ok(a.content.value)
  }

  datatype Turn = Over(result: Result<Negotiation, HandshakeError>) | Skips | Sends(reply: Message)

  /** What the next answer leads to. */
  function NextTurn(d: Device, key: HostKey, x: Point): Turn
    requires Within(x)
  {
    var incoming := Incoming(d.answers(x.received), x.tokens == 2);
    if incoming.Err? then Over(Err(incoming.error))
    else
      var m := incoming.value;
      if Token(m) && x.tokens < 2 then
        var reply := Reply(x.tokens, m.payload, key);
        if reply.None? then Over(Err(KeyFailed))
        else if !d.accepts(|x.sent|) then Over(Err(SendFailed))
        else Sends(reply.value)
      else if Stale(m) && x.skipped < MAX_STALE then Skips
      else Over(Verdict(m))
  }

  function TimedAfter(x: Point): nat {
    if x.tokens == 2 then x.timed + 1 else x.timed
  }

  function NextPoint(x: Point, t: Turn): Point
    requires !t.Over?
  {
    if t.Skips? then Point(x.tokens, x.skipped + 1, x.received + 1, TimedAfter(x), x.sent)
    else Point(x.tokens + 1, x.skipped, x.received + 1, TimedAfter(x), x.sent + [t.reply])
  }

  /** The exchange from a point on. */
  function Play(d: Device, key: HostKey, x: Point): End
    requires Within(x)
    decreases 2 - x.tokens, MAX_STALE - x.skipped
  {
    var t := NextTurn(d, key, x);
    if t.Over? then End(t.result, x.received + 1, TimedAfter(x), x.sent)
    else Play(d, key, NextPoint(x, t))
  }

  /** The result of a message that ends the exchange. */
  function Verdict(m: Message): Result<Negotiation, HandshakeError> {
    match m.command
    case Connect => Negotiate(m)
    case Auth => if m.arg0 == AUTH_TOKEN then Err(Unauthorized) else Err(UnexpectedAuth)
    case StartTls => Err(TlsUnsupported)
    case Open => Err(UnexpectedOpen)
    case _ => Err(TooManyStale)
  }

  class Link {
    const device: Device
    var config: WireConfig
    var received: nat
    var timed: nat
    var sent: seq<Message>

    constructor (device: Device)
      ensures this.device == device && received == 0 && timed == 0 && sent == []
    {
      this.device, config, received, timed, sent := device, INITIAL, 0, 0, [];
    }

    method Configure(config: WireConfig)
      modifies `config
      ensures this.config == config
    {
      this.config := config;
    }

    method Send(m: Message) returns (ok: bool)
      modifies `sent
      ensures ok == device.accepts(|old(sent)|)
      ensures sent == if ok then old(sent) + [m] else old(sent)
    {
      ok := device.accepts(|sent|);
      if ok {
        sent := sent + [m];
      }
    }

    method Recv(timeout: bool) returns (r: Result<Message, HandshakeError>)
      modifies `received, `timed
      ensures received == old(received) + 1 && timed == old(timed) + if timeout then 1 else 0
      ensures r == Incoming(device.answers(old(received)), timeout)
    {
      r := Incoming(device.answers(received), timeout);
      received := received + 1;
      if timeout {
        timed := timed + 1;
      }
    }
  }

  function Greeting(banner: Data): Message {
    Message(Connect, VERSION, MAX_PAYLOAD, banner)
  }

  function Start(banner: Data): Point {
    Point(0, 0, 0, 0, [Greeting(banner)])
  }

  function Exchange(d: Device, key: HostKey, banner: Data): End {
    if !d.accepts(0) then End(Err(SendFailed), 0, 0, [])
    else Play(d, key, Start(banner))
  }

  /** Answers a token: with its signature, or with the public key if a signature was sent before. */
  method AnswerToken(transport: Link, key: HostKey, sentSignature: bool, token: Data)
    returns (failure: Option<HandshakeError>)
    modifies transport`sent
    ensures var reply := Reply(if sentSignature then 1 else 0, token, key);
            if reply.None? then failure == Some(KeyFailed) && transport.sent == old(transport.sent)
            else if !transport.device.accepts(|old(transport.sent)|) then
              failure == Some(SendFailed) && transport.sent == old(transport.sent)
            else failure == None && transport.sent == old(transport.sent) + [reply.value]
  {
    var payload := if sentSignature then key.publicKey else key.sign(token);
    if payload.None? {
      return Some(KeyFailed);
    }
    var kind := if sentSignature then AUTH_RSAPUBLICKEY else AUTH_SIGNATURE;
    var ok := transport.Send(Message(Auth, kind, 0, payload.value));
    failure := if ok then None else Some(SendFailed);
  }

  /** The loop plays exactly the exchange above, and leaves the transport configured as agreed. */
  method Run(transport: Link, key: HostKey, banner: Data) returns (r: Result<Negotiation, HandshakeError>)
    requires transport.received == 0 && transport.timed == 0 && transport.sent == []
    modifies transport
    ensures End(r, transport.received, transport.timed, transport.sent) == Exchange(transport.device, key, banner)
    ensures r.Ok? ==>
              var c := transport.config;
              && c.computeChecksum == c.verifyChecksum == (r.value.version < 0x0100_0001)
              && c.maxPayload == r.value.maxPayload
    ensures r.Err? ==> transport.config == WireConfig(true, false, 0x10_0000)
  {
    transport.Configure(INITIAL);
    var greeted := transport.Send(Greeting(banner));
    if !greeted {
      return Err(SendFailed);
    }
    assert transport.sent == [Greeting(banner)];
    var sentSignature, sentPubkey, skipped := false, false, 0;
    ghost var d := transport.device;
    ghost var x := Start(banner);
    while true
      invariant x == Point(if sentPubkey then 2 else if sentSignature then 1 else 0, skipped,
                           transport.received, transport.timed, transport.sent)
      invariant Within(x) && (sentPubkey ==> sentSignature) && transport.config == INITIAL
      invariant Exchange(d, key, banner) == Play(d, key, x)
      decreases 2 - x.tokens, MAX_STALE - x.skipped
    {
      ghost var t := NextTurn(d, key, x);
      var incoming := transport.Recv(sentPubkey);
      if incoming.Err? {
        return Err(incoming.error);
      }
      var m := incoming.value;
      match m.command {
        case Connect =>
          var negotiated := Negotiate(m);
          if negotiated.Ok? {
            transport.Configure(Negotiated(negotiated.value.version, negotiated.value.maxPayload));
          }
          return negotiated;
        case Auth =>
          if m.arg0 != AUTH_TOKEN {
            return Err(UnexpectedAuth);
          } else if sentPubkey {
            return Err(Unauthorized);
          }
          var failure := AnswerToken(transport, key, sentSignature, m.payload);
          if failure.Some? {
            return Err(failure.value);
          }
          sentSignature, sentPubkey := true, sentSignature;
          x := NextPoint(x, t);
        case StartTls => return Err(TlsUnsupported);
        case Open => return Err(UnexpectedOpen);
        case _ =>
          skipped := skipped + 1;
          if skipped > MAX_STALE {
            return Err(TooManyStale);
          }
          x := NextPoint(x, t);
      }
    }
  }

  predicate TokenAt(d: Device, k: nat) {
    d.answers(k).content.Ok? && d.answers(k).content.value.command.Auth? && d.answers(k).content.value.arg0 == 1
  }

  ghost predicate NoToken(d: Device, n: nat) {
    forall k :: 0 <= k < n ==> !TokenAt(d, k)
  }

  ghost predicate SignatureOf(d: Device, key: HostKey, k: nat, m: Message) {
    && TokenAt(d, k) && NoToken(d, k) && key.sign(d.answers(k).content.value.payload).Some?
    && m == Message(Auth, 2, 0, key.sign(d.answers(k).content.value.payload).value)
  }

  /** The greeting, then perhaps the signature of the first token, then perhaps the public key. */
  ghost predicate Said(d: Device, key: HostKey, banner: Data, received: nat, sent: seq<Message>) {
    && 1 <= |sent| <= 3 && sent[0] == Message(Connect, 0x0100_0001, 0x10_0000, banner)
    && (|sent| > 1 ==> exists k :: 0 <= k < received && SignatureOf(d, key, k, sent[1]))
    && (|sent| > 2 ==> key.publicKey.Some? && sent[2] == Message(Auth, 3, 0, key.publicKey.value))
  }

  /** What holds whenever the loop is about to receive. */
  ghost predicate Good(d: Device, key: HostKey, banner: Data, x: Point) {
    && Within(x) && |x.sent| == 1 + x.tokens && x.received == x.tokens + x.skipped
    && x.timed <= x.skipped && (x.timed > 0 ==> x.tokens == 2)
    && (x.tokens == 0 ==> NoToken(d, x.received))
    && Said(d, key, banner, x.received, x.sent)
  }

  lemma SendKeepsGood(d: Device, key: HostKey, banner: Data, x: Point)
    requires Good(d, key, banner, x) && NextTurn(d, key, x).Sends?
    ensures Good(d, key, banner, NextPoint(x, NextTurn(d, key, x)))
  {
    var m := NextTurn(d, key, x).reply;
    var more := x.sent + [m];
    assert more[0] == x.sent[0];
    if x.tokens == 0 {
      assert SignatureOf(d, key, x.received, more[1]);
    } else {
      var k :| 0 <= k < x.received && SignatureOf(d, key, k, x.sent[1]);
      assert more[1] == x.sent[1];
    }
  }

  lemma SkipKeepsGood(d: Device, key: HostKey, banner: Data, x: Point)
    requires Good(d, key, banner, x) && NextTurn(d, key, x).Skips?
    ensures Good(d, key, banner, NextPoint(x, NextTurn(d, key, x)))
  {
  }

  /** Every exchange comes to an end, at a good point. */
  lemma {:induction false} LastPoint(d: Device, key: HostKey, banner: Data, x: Point) returns (y: Point)
    requires Good(d, key, banner, x)
    ensures Good(d, key, banner, y) && NextTurn(d, key, y).Over? && Play(d, key, x) == Play(d, key, y)
    decreases 2 - x.tokens, MAX_STALE - x.skipped
  {
    var t := NextTurn(d, key, x);
    if t.Over? {
      y := x;
    } else {
      if t.Sends? {
        SendKeepsGood(d, key, banner, x);
      } else {
        SkipKeepsGood(d, key, banner, x);
      }
      y := LastPoint(d, key, banner, NextPoint(x, t));
    }
  }

  lemma StartIsGood(d: Device, key: HostKey, banner: Data)
    ensures Good(d, key, banner, Start(banner))
  {
  }

  /** At most 67 messages are received and at most 65 receives are timed, whatever the device; they
      are timed once the public key is out, and none before. */
  lemma HandshakeIsBounded(d: Device, key: HostKey, banner: Data)
    ensures var end := Exchange(d, key, banner);
            && end.received <= 67 && end.timed <= 65 && |end.sent| <= 3
            && (end.timed > 0 <==> |end.sent| == 3)
  {
    if d.accepts(0) {
      StartIsGood(d, key, banner);
      var y := LastPoint(d, key, banner, Start(banner));
    }
  }

  /** The host greets, then sends at most one signature, that of the first token, then at most one
      public key. */
  lemma HostSaysNoMore(d: Device, key: HostKey, banner: Data)
    ensures var end := Exchange(d, key, banner);
            end.sent == [] || Said(d, key, banner, end.received, end.sent)
  {
    if d.accepts(0) {
      StartIsGood(d, key, banner);
      var y := LastPoint(d, key, banner, Start(banner));
    }
  }

  /** What the device's greeting `m` makes of the connection: its banner; the lower of its version and
      ours; and its payload limit, but 1 MiB at most, or 256 KiB if it names none. */
  predicate Agreed(m: Message, n: Negotiation) {
    && n.banner == m.payload
    && n.version == (if m.arg0 < 0x0100_0001 then m.arg0 else 0x0100_0001)
    && (m.arg1 > 0 ==> n.maxPayload <= m.arg1)
    && (0 < m.arg1 <= 0x10_0000 ==> n.maxPayload == m.arg1)
    && (m.arg1 > 0x10_0000 ==> n.maxPayload == 0x10_0000)
    && (m.arg1 == 0 ==> n.maxPayload == 0x4_0000)
  }

  /** The result of a message that ends the exchange, `sent` messages having been sent before it and
      `received` received with it. */
  predicate EndedBy(d: Device, key: HostKey, m: Message, result: Result<Negotiation, HandshakeError>, sent: nat,
                    received: nat) {
    match m.command
    case Connect =>
      if m.arg0 < 0x0100_0000 then result == Err(TooOld) else result.Ok? && Agreed(m, result.value)
    case Auth =>
      if m.arg0 != 1 then result == Err(UnexpectedAuth)
      else if sent == 3 then result == Err(Unauthorized)
      else if (if sent == 1 then key.sign(m.payload).None? else key.publicKey.None?) then result == Err(KeyFailed)
      else result == Err(SendFailed) && !d.accepts(sent)
    case StartTls => result == Err(TlsUnsupported)
    case Open => result == Err(UnexpectedOpen)
    case _ => result == Err(TooManyStale) && received == sent + 64
  }

  /** How an exchange ends: a timeout once the public key is out, a failing receive, or by the last
      message. */
  predicate Ended(d: Device, key: HostKey, end: End) {
    && end.received > 0
    && var last := d.answers(end.received - 1);
       if |end.sent| == 3 && last.late then end.result == Err(Unauthorized)
       else if last.content.Err? then end.result == Err(Transport(last.content.error))
       else EndedBy(d, key, last.content.value, end.result, |end.sent|, end.received)
  }

  lemma LastTurnEnds(d: Device, key: HostKey, banner: Data, y: Point)
    requires Good(d, key, banner, y) && NextTurn(d, key, y).Over?
    ensures Ended(d, key, Play(d, key, y))
  {
  }

  /** How the handshake ends is decided by the last answer: it succeeds exactly if that is a timely
      greeting of a version not too old. What is agreed is within the limits of both sides, so a
      stream's chunks are never empty. It reports the host as unauthorised only after offering its
      public key. */
  lemma HandshakeResult(d: Device, key: HostKey, banner: Data)
    ensures var end := Exchange(d, key, banner);
            && (d.accepts(0) ==> Ended(d, key, end))
            && (end.result.Ok? ==>
                  && 1 <= end.result.value.maxPayload <= 0x10_0000
                  && 0x0100_0000 <= end.result.value.version <= 0x0100_0001)
            && (end.result == Err(Unauthorized) ==> |end.sent| == 3)
  {
    if d.accepts(0) {
      StartIsGood(d, key, banner);
      var y := LastPoint(d, key, banner, Start(banner));
      LastTurnEnds(d, key, banner, y);
      HandshakeIsBounded(d, key, banner);
    }
  }

  /** A device that asks twice for authentication, sends all the stale frames allowed, then greets. */
  function Slowest(k: nat): Answer {
    var m := if k < 2 then Message(Auth, AUTH_TOKEN, 0, [])
             else if k < 2 + MAX_STALE then Message(Close, 0, 0, [])
             else Message(Connect, VERSION, MAX_PAYLOAD, []);
    Answer(Ok(m), false)
  }

  lemma {:induction false} SlowestPlays(key: HostKey, skipped: nat, sent: seq<Message>)
    requires skipped <= MAX_STALE
    ensures Play(Device(Slowest, _ => true), key, Point(2, skipped, 2 + skipped, skipped, sent))
            == End(Ok(Negotiation([], VERSION, MAX_PAYLOAD)), 67, 65, sent)
    decreases MAX_STALE - skipped
  {
    if skipped < MAX_STALE {
      SlowestPlays(key, skipped + 1, sent);
    }
  }

  /** Both bounds are reached, by a handshake that succeeds. */
  lemma BoundsAreReached(key: HostKey, banner: Data)
    requires key.sign([]).Some? && key.publicKey.Some?
    ensures var end := Exchange(Device(Slowest, _ => true), key, banner);
            end.result.Ok? && end.received == 67 && end.timed == 65
  {
    var d, x := Device(Slowest, _ => true), Start(banner);
    var y := NextPoint(x, NextTurn(d, key, x));
    var z := NextPoint(y, NextTurn(d, key, y));
    assert Play(d, key, x) == Play(d, key, y) == Play(d, key, z);
    SlowestPlays(key, 0, z.sent);
  }
}
