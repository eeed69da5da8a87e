/** Flow control with any device that keeps the protocol's rule: a WRTE or OPEN it has taken is
    acknowledged at most once, at any later time, and it sends no WRTE of its own before the
    acknowledgement of the last. `DeviceEngine` is one such device. */
module FlowControl {
  import opened Bytes
  import opened Wire
  import opened StreamModel
  import opened StreamMachine
  import opened StreamInvariant
  import opened SessionSystem
  import opened SessionProjection
  import opened SessionInvariant
  import DeviceEngine

  /** The device's side of a stream, as far as the rule goes: how many requests it has taken and not
      acknowledged, and whether a WRTE of its own is not acknowledged yet. */
  datatype Peer = Peer(owed: nat, inFlight: bool)

  const NEW_PEER := Peer(0, false)

  /** The host's side is that of `StreamMachine`, without its device. */
  datatype World = World(host: Local, peer: Peer)

  const BEGIN := World(Local(None, [], [], [], map[], true, true), NEW_PEER)

  datatype Move = Host(e: Event) | Takes | Says(m: Message)

  /** The rule. Anything that is neither an OKAY nor a WRTE may be said at any time. */
  predicate MaySay(i: u32, p: Peer, m: Message) {
    m.arg1 == i && (m.command.Okay? ==> p.owed > 0) && (m.command.Write? ==> !p.inFlight)
  }

  predicate CanMove(i: u32, w: World, move: Move) {
    match move
    case Host(e) => !e.DeviceHandles? && Enabled(i, w.host, e)
    case Takes => w.host.toDevice != []
    case Says(m) => MaySay(i, w.peer, m)
  }

  predicate IsRequest(m: Message) {
    m.command.Open? || m.command.Write?
  }

  function Taken(p: Peer, m: Message): Peer {
    if IsRequest(m) then p.(owed := p.owed + 1)
    else if m.command.Okay? then p.(inFlight := false)
    else p
  }

  function Said(p: Peer, m: Message): Peer
    requires m.command.Okay? ==> p.owed > 0
  {
    if m.command.Okay? then p.(owed := p.owed - 1)
    else if m.command.Write? then p.(inFlight := true)
    else p
  }

  function Moved(i: u32, w: World, move: Move, cfg: Config): World
    requires Sane(cfg) && CanMove(i, w, move)
  {
    match move
    case Host(e) => World(Next(i, w.host, e, cfg), if e.OpenCall? then NEW_PEER else w.peer)
    case Takes => World(w.host.(toDevice := w.host.toDevice[1..]), Taken(w.peer, w.host.toDevice[0]))
    case Says(m) => World(w.host.(toHost := w.host.toHost + [m]), Said(w.peer, m))
  }

  predicate Follows(i: u32, w: World, moves: seq<Move>, cfg: Config)
    requires Sane(cfg)
    decreases |moves|
  {
    moves == [] || (CanMove(i, w, moves[0]) && Follows(i, Moved(i, w, moves[0], cfg), moves[1..], cfg))
  }

  function After(i: u32, w: World, moves: seq<Move>, cfg: Config): World
    requires Sane(cfg) && Follows(i, w, moves, cfg)
    decreases |moves|
  {
    if moves == [] then w else After(i, Moved(i, w, moves[0], cfg), moves[1..], cfg)
  }

  /** OPENs and WRTEs without an acknowledgement: on their way, with the device, or with their OKAY
      on its way. */
  function Pending(w: World): nat {
    Requests(ToDevice(w.host)) + w.peer.owed + Count(w.host.toHost, Okay)
  }

  function Held(rec: Option<Rec>): nat {
    match rec
    case None => 0
    case Some(r) => |r.view.queue|
  }

  /** Payloads on their way to the caller, not yet taken, or with their OKAY on its way. */
  function Buffered(w: World): nat {
    Count(w.host.toHost, Write) + Held(w.host.rec) + Count(ToDevice(w.host), Okay)
  }

  predicate OwnerFlow(rec: Option<Rec>, pending: nat) {
    match rec
    case None => pending == 0
    case Some(r) =>
      && pending <= 1
      && (Blocked(r) ==> Seen(r) <= r.view.acks <= Seen(r) + 1 - pending)
      && (r.owner.Idle? && !r.view.closed ==> pending == 0)
  }

  predicate Flows(w: World) {
    && OwnerFlow(w.host.rec, Pending(w))
    && Buffered(w) <= 1
    && (!w.peer.inFlight ==> Buffered(w) == 0)
  }

  // -- What one host step does to the counts --

  function Answers(posts: seq<Message>): nat {
    Count(posts, Okay)
  }

  lemma One(m: Message, c: Command)
    ensures Count([m], c) == if m.command == c then 1 else 0
  {
    assert [m][1..] == [];
  }

  /** The counts of what one step posts. */
  lemma Few(posts: seq<Message>)
    requires |posts| <= 1
    ensures Requests(posts) == if posts != [] && IsRequest(posts[0]) then 1 else 0
    ensures Answers(posts) == if posts != [] && posts[0].command.Okay? then 1 else 0
  {
    if posts != [] {
      assert posts == [posts[0]];
      One(posts[0], Open);
      One(posts[0], Write);
      One(posts[0], Okay);
    }
  }

  /** The owner posts a request only when none is pending, and an OKAY for a payload it took. */
  lemma OwnerStepFlows(id: u32, r: Rec, call: Call, writerUp: bool, max: nat, pending: nat)
    requires CanCall(r, call) && OwnerFlow(Some(r), pending)
    ensures var (r', posts) := OwnerStep(id, r, call, writerUp, max);
            && OwnerFlow(Some(r'), pending + Requests(posts))
            && |r'.view.queue| + Answers(posts) <= |r.view.queue|
  {
    var posts := OwnerStep(id, r, call, writerUp, max).1;
    Few(posts);
  }

  /** The reader posts CLSEs only, and queues a payload only from a WRTE. */
  lemma ReaderStepFlows(rec: Option<Rec>, msg: Message, writerUp: bool, pending: nat)
    requires OwnerFlow(rec, pending) && (msg.command.Okay? ==> pending > 0)
    ensures var (rec', posts, stops) := ReaderStep(rec, msg, writerUp);
            && OwnerFlow(rec', if msg.command.Okay? then pending - 1 else pending)
            && Held(rec') <= Held(rec) + (if msg.command.Write? then 1 else 0)
            && Requests(posts) == 0 && Answers(posts) == 0
  {
    Few(ReaderStep(rec, msg, writerUp).1);
  }

  lemma Appended(a: seq<Message>, b: seq<Message>)
    ensures Requests(a + b) == Requests(a) + Requests(b)
    ensures forall c :: Count(a + b, c) == Count(a, c) + Count(b, c)
  {
    forall c ensures Count(a + b, c) == Count(a, c) + Count(b, c) {
      CountAppend(a, b, c);
    }
  }

  lemma Beheaded(a: seq<Message>)
    requires a != []
    ensures Requests(a) == (if IsRequest(a[0]) then 1 else 0) + Requests(a[1..])
    ensures forall c :: Count(a, c) == (if a[0].command == c then 1 else 0) + Count(a[1..], c)
  {
  }

  // -- Every move keeps it --

  lemma PostsJoin(l: Local, posts: seq<Message>)
    ensures l.toDevice + (l.outbox + posts) == ToDevice(l) + posts
  {
  }

  /** A host step that leaves the incoming queue alone. */
  lemma PostsFlow(w: World, w': World, posts: seq<Message>)
    requires Flows(w) && w'.peer == w.peer
    requires w'.host.toDevice == w.host.toDevice && w'.host.outbox == w.host.outbox + posts
    requires w'.host.toHost == w.host.toHost
    requires OwnerFlow(w'.host.rec, Pending(w) + Requests(posts))
    requires Held(w'.host.rec) + Answers(posts) <= Held(w.host.rec)
    ensures Flows(w')
  {
    PostsJoin(w.host, posts);
    Appended(ToDevice(w.host), posts);
  }

  lemma OwnerMoves(i: u32, w: World, call: Call, cfg: Config)
    requires Sane(cfg) && Flows(w) && CanMove(i, w, Host(OwnerCall(i, call)))
    ensures Flows(Moved(i, w, Host(OwnerCall(i, call)), cfg))
  {
    var r, h := w.host.rec.value, w.host;
    var posts := OwnerStep(i, r, call, h.writerUp, cfg.maxPayload).1;
    OwnerStepFlows(i, r, call, h.writerUp, cfg.maxPayload, Pending(w));
    PostsFlow(w, Moved(i, w, Host(OwnerCall(i, call)), cfg), posts);
  }

  lemma OpenMoves(i: u32, w: World, service: Data, cfg: Config)
    requires Sane(cfg) && CanMove(i, w, Host(OpenCall(i, service)))
    ensures Flows(Moved(i, w, Host(OpenCall(i, service)), cfg))
  {
    var posts := OpenStream(i, service, w.host.writerUp).1;
    Few(posts);
    OpensFlow(Moved(i, w, Host(OpenCall(i, service)), cfg), posts);
  }

  lemma OpensFlow(w: World, posts: seq<Message>)
    requires w.peer == NEW_PEER && w.host.toDevice == [] && w.host.outbox == [] + posts && w.host.toHost == []
    requires OwnerFlow(w.host.rec, Requests(posts)) && Held(w.host.rec) == 0 && Answers(posts) == 0
    ensures Flows(w)
  {
    assert ToDevice(w.host) == posts;
  }

  lemma WriterMovesOn(i: u32, w: World, cfg: Config)
    requires Sane(cfg) && Flows(w) && CanMove(i, w, Host(WriterMoves))
    ensures Flows(Moved(i, w, Host(WriterMoves), cfg))
  {
    var h := w.host;
    assert (h.toDevice + [h.outbox[0]]) + h.outbox[1..] == ToDevice(h);
  }

  lemma WriterStopsFlow(i: u32, w: World, cfg: Config)
    requires Sane(cfg) && Flows(w)
    ensures Flows(Moved(i, w, Host(WriterStops), cfg))
  {
    var h := w.host;
    Appended(h.toDevice, h.outbox);
    assert h.toDevice + [] == h.toDevice;
  }

  lemma ReaderMoves(i: u32, w: World, cfg: Config)
    requires Sane(cfg) && Flows(w) && CanMove(i, w, Host(ReaderDispatches))
    ensures Flows(Moved(i, w, Host(ReaderDispatches), cfg))
  {
    var h := w.host;
    var posts := ReaderStep(h.rec, h.toHost[0], h.writerUp).1;
    Beheaded(h.toHost);
    ReaderStepFlows(h.rec, h.toHost[0], h.writerUp, Pending(w));
    PostsJoin(h, posts);
    Appended(ToDevice(h), posts);
  }

  lemma TakesFlow(i: u32, w: World, cfg: Config)
    requires Sane(cfg) && Flows(w) && CanMove(i, w, Takes)
    ensures Flows(Moved(i, w, Takes, cfg))
  {
    var h := w.host;
    Beheaded(ToDevice(h));
    assert ToDevice(h)[1..] == h.toDevice[1..] + h.outbox;
  }

  lemma SaysFlow(i: u32, w: World, m: Message, cfg: Config)
    requires Sane(cfg) && Flows(w) && CanMove(i, w, Says(m))
    ensures Flows(Moved(i, w, Says(m), cfg))
  {
    Appended(w.host.toHost, [m]);
    One(m, Okay);
    One(m, Write);
  }

  lemma MoveKeeps(i: u32, w: World, move: Move, cfg: Config)
    requires Sane(cfg) && Flows(w) && CanMove(i, w, move)
    ensures Flows(Moved(i, w, move, cfg))
  {
    match move {
      case Takes => TakesFlow(i, w, cfg);
      case Says(m) => SaysFlow(i, w, m, cfg);
      case Host(OpenCall(_, service)) => OpenMoves(i, w, service, cfg);
      case Host(OwnerCall(_, call)) => OwnerMoves(i, w, call, cfg);
      case Host(WriterMoves) => WriterMovesOn(i, w, cfg);
      case Host(ReaderDispatches) => ReaderMoves(i, w, cfg);
      case Host(WriterStops) => WriterStopsFlow(i, w, cfg);
      case Host(ReaderStops) =>
    }
  }

  lemma {:induction false} MovesKeep(i: u32, w: World, moves: seq<Move>, cfg: Config)
    requires Sane(cfg) && Flows(w) && Follows(i, w, moves, cfg)
    ensures Flows(After(i, w, moves, cfg))
    decreases |moves|
  {
    if moves != [] {
      MoveKeeps(i, w, moves[0], cfg);
      MovesKeep(i, Moved(i, w, moves[0], cfg), moves[1..], cfg);
    }
  }

  /** One payload in flight per direction, with every device that keeps the rule and every schedule:
      one request without its acknowledgement at most, none when no `send` runs on an open stream;
      and one payload towards the caller at most, counting its acknowledgement. */
  lemma OneInFlightEachWay(i: u32, moves: seq<Move>, cfg: Config)
    requires Sane(cfg) && Follows(i, BEGIN, moves, cfg)
    ensures var w := After(i, BEGIN, moves, cfg);
            && Pending(w) <= 1 && Buffered(w) <= 1
            && (w.host.rec.Some? && w.host.rec.value.owner.Idle? && !w.host.rec.value.view.closed ==> Pending(w) == 0)
  {
    MovesKeep(i, BEGIN, moves, cfg);
  }

  // -- The engine keeps the rule --

  /** A record without what the device's side of the log holds. */
  function Bare(r: Rec): Rec {
    r.(log := r.log.(deviceId := 0, accepted := [], produced := [], emitted := []))
  }

  function BareLocal(l: Local): Local {
    l.(rec := if l.rec.None? then None else Some(Bare(l.rec.value)), devs := map[])
  }

  predicate FlightKnown(l: Local) {
    && l.rec.Some?
    && var id := l.rec.value.log.deviceId;
       id != 0 && (id in l.devs ==> l.devs[id].inFlight)
  }

  predicate Abstracts(w: World, l: Local) {
    w.host == BareLocal(l) && (w.peer.inFlight ==> FlightKnown(l))
  }

  lemma {:induction false} FollowsJoin(i: u32, w: World, a: seq<Move>, b: seq<Move>, cfg: Config)
    requires Sane(cfg) && Follows(i, w, a, cfg) && Follows(i, After(i, w, a, cfg), b, cfg)
    ensures Follows(i, w, a + b, cfg) && After(i, w, a + b, cfg) == After(i, After(i, w, a, cfg), b, cfg)
    decreases |a|
  {
    if a == [] {
      assert a + b == b;
    } else {
      FollowsJoin(i, Moved(i, w, a[0], cfg), a[1..], b, cfg);
      assert (a + b)[0] == a[0] && (a + b)[1..] == a[1..] + b;
    }
  }

  lemma MoveFirst(i: u32, w: World, move: Move, more: seq<Move>, cfg: Config)
    requires Sane(cfg) && CanMove(i, w, move) && Follows(i, Moved(i, w, move, cfg), more, cfg)
    ensures Follows(i, w, [move] + more, cfg)
    ensures After(i, w, [move] + more, cfg) == After(i, Moved(i, w, move, cfg), more, cfg)
  {
    assert ([move] + more)[0] == move && ([move] + more)[1..] == more;
  }

  lemma OneMove(i: u32, w: World, move: Move, cfg: Config)
    requires Sane(cfg) && CanMove(i, w, move)
    ensures Follows(i, w, [move], cfg) && After(i, w, [move], cfg) == Moved(i, w, move, cfg)
  {
    MoveFirst(i, w, move, [], cfg);
    assert [move] + [] == [move];
  }

  lemma OwnerIsBare(id: u32, r: Rec, call: Call, writerUp: bool, max: nat)
    requires CanCall(r, call)
    ensures CanCall(Bare(r), call)
    ensures var (r', posts) := OwnerStep(id, r, call, writerUp, max);
            OwnerStep(id, Bare(r), call, writerUp, max) == (Bare(r'), posts) && r'.log.deviceId == r.log.deviceId
  {
  }

  lemma ReaderIsBare(r: Rec, msg: Message, writerUp: bool)
    ensures var (rec', posts, stops) := ReaderStep(Some(r), msg, writerUp);
            && rec'.Some? && rec'.value.log.deviceId == r.log.deviceId
            && ReaderStep(Some(Bare(r)), msg, writerUp) == (Some(Bare(rec'.value)), posts, stops)
  {
  }

  /** The host's own steps do not look at what the bare record leaves out. */
  lemma HostIsBare(i: u32, l: Local, e: Event, cfg: Config)
    requires Sane(cfg) && Enabled(i, l, e) && !e.DeviceHandles?
    ensures Enabled(i, BareLocal(l), e) && Next(i, BareLocal(l), e, cfg) == BareLocal(Next(i, l, e, cfg))
    ensures !e.OpenCall? && FlightKnown(l) ==> FlightKnown(Next(i, l, e, cfg))
  {
    match e {
      case OwnerCall(_, call) => OwnerIsBare(i, l.rec.value, call, l.writerUp, cfg.maxPayload);
      case ReaderDispatches =>
        if l.rec.Some? {
          ReaderIsBare(l.rec.value, l.toHost[0], l.writerUp);
        }
      case _ =>
    }
  }

  function Saying(ms: seq<Message>): seq<Move> {
    if ms == [] then [] else [Says(ms[0])] + Saying(ms[1..])
  }

  /** The rule allows these messages one after the other. */
  predicate MaySayAll(i: u32, p: Peer, ms: seq<Message>)
    decreases |ms|
  {
    ms == [] || (MaySay(i, p, ms[0]) && MaySayAll(i, Said(p, ms[0]), ms[1..]))
  }

  function SaidAll(i: u32, p: Peer, ms: seq<Message>): Peer
    requires MaySayAll(i, p, ms)
    decreases |ms|
  {
    if ms == [] then p else SaidAll(i, Said(p, ms[0]), ms[1..])
  }

  lemma {:induction false} SayingFollows(i: u32, w: World, ms: seq<Message>, cfg: Config)
    requires Sane(cfg) && MaySayAll(i, w.peer, ms)
    ensures Follows(i, w, Saying(ms), cfg)
    ensures After(i, w, Saying(ms), cfg)
            == World(w.host.(toHost := w.host.toHost + ms), SaidAll(i, w.peer, ms))
    decreases |ms|
  {
    if ms == [] {
      assert w.host.toHost + ms == w.host.toHost;
    } else {
      var w1 := Moved(i, w, Says(ms[0]), cfg);
      SayingFollows(i, w1, ms[1..], cfg);
      MoveFirst(i, w, Says(ms[0]), Saying(ms[1..]), cfg);
      assert w1.host.toHost + ms[1..] == w.host.toHost + ms;
    }
  }

  lemma OneSaid(i: u32, p: Peer, m: Message)
    requires MaySay(i, p, m)
    ensures MaySayAll(i, p, [m]) && SaidAll(i, p, [m]) == Said(p, m)
  {
    assert MaySayAll(i, Said(p, m), [m][1..]);
  }

  /** A turn of the engine sends a WRTE only when none is in flight. */
  lemma PumpObeys(i: u32, p: Peer, devs: DeviceEngine.Streams, d: u32, finished: bool)
    requires d in devs && devs[d].host == i && (p.inFlight ==> devs[d].inFlight)
    ensures var h := DeviceEngine.Pump(devs, d, finished);
            && MaySayAll(i, p, h.replies)
            && (SaidAll(i, p, h.replies).inFlight ==> d in h.streams ==> h.streams[d].inFlight)
  {
    var h := DeviceEngine.Pump(devs, d, finished);
    if h.replies != [] {
      OneSaid(i, p, h.replies[0]);
      assert h.replies == [h.replies[0]];
    }
  }

  /** With an acknowledgement in front of it. */
  lemma AcknowledgedPump(i: u32, p: Peer, devs: DeviceEngine.Streams, d: u32, finished: bool)
    requires d in devs && devs[d].host == i && (p.inFlight ==> devs[d].inFlight) && p.owed > 0
    ensures var h := DeviceEngine.Pump(devs, d, finished);
            var replies := [Empty(Okay, d, i)] + h.replies;
            && MaySayAll(i, p, replies)
            && (SaidAll(i, p, replies).inFlight ==> d in h.streams ==> h.streams[d].inFlight)
  {
    var okay := Empty(Okay, d, i);
    var h := DeviceEngine.Pump(devs, d, finished);
    PumpObeys(i, Said(p, okay), devs, d, finished);
    assert ([okay] + h.replies)[1..] == h.replies;
  }

  /** What the engine says in one turn is allowed, and it still knows of its WRTE in flight. */
  predicate TurnObeys(i: u32, p: Peer, id: u32, h: DeviceEngine.Handled) {
    && MaySayAll(i, p, h.replies)
    && (SaidAll(i, p, h.replies).inFlight ==> id != 0 && (id in h.streams ==> h.streams[id].inFlight))
  }

  predicate Known(p: Peer, id: u32, devs: DeviceEngine.Streams) {
    p.inFlight ==> id != 0 && (id in devs ==> devs[id].inFlight)
  }

  lemma OpenObeys(i: u32, p: Peer, msg: Message, newId: u32, devs: DeviceEngine.Streams, choice: DeviceEngine.Choice,
                  max: nat)
    requires max > 0 && msg.command.Open? && msg.arg0 == i && newId != 0 && !p.inFlight
    ensures TurnObeys(i, Taken(p, msg), if choice.accept then newId else 0,
                      DeviceEngine.Handle(devs, msg, newId, choice, max))
  {
    var p' := Taken(p, msg);
    if choice.accept {
      var added := devs[newId := DeviceEngine.DevStream(i, DeviceEngine.Chunked(choice.replies, max), false)];
      AcknowledgedPump(i, p', added, newId, choice.finished);
    } else {
      OneSaid(i, p', Empty(Close, 0, i));
    }
  }

  lemma WriteObeys(i: u32, p: Peer, id: u32, msg: Message, newId: u32, devs: DeviceEngine.Streams,
                   choice: DeviceEngine.Choice, max: nat)
    requires max > 0 && msg.command.Write? && msg.arg0 == i && msg.arg1 == id != 0 && Known(p, id, devs)
    requires id in devs ==> devs[id].host == i
    ensures TurnObeys(i, Taken(p, msg), id, DeviceEngine.Handle(devs, msg, newId, choice, max))
  {
    if id in devs {
      var queued := devs[id := devs[id].(queue := devs[id].queue + DeviceEngine.Chunked(choice.replies, max))];
      AcknowledgedPump(i, Taken(p, msg), queued, id, choice.finished);
    }
  }

  lemma OkayObeys(i: u32, p: Peer, id: u32, msg: Message, newId: u32, devs: DeviceEngine.Streams,
                  choice: DeviceEngine.Choice, max: nat)
    requires max > 0 && msg.command.Okay? && msg.arg0 == i && msg.arg1 == id != 0
    requires id in devs ==> devs[id].host == i
    ensures TurnObeys(i, Taken(p, msg), id, DeviceEngine.Handle(devs, msg, newId, choice, max))
  {
    if id in devs {
      PumpObeys(i, Taken(p, msg), devs[id := devs[id].(inFlight := false)], id, choice.finished);
    }
  }

  lemma CloseObeys(i: u32, p: Peer, id: u32, msg: Message, newId: u32, devs: DeviceEngine.Streams,
                   choice: DeviceEngine.Choice, max: nat)
    requires max > 0 && msg.command.Close? && Known(p, id, devs)
    ensures TurnObeys(i, Taken(p, msg), id, DeviceEngine.Handle(devs, msg, newId, choice, max))
  {
  }

  /** The id that the device has given the stream after its turn. */
  function IdAfter(id: u32, msg: Message, newId: u32, choice: DeviceEngine.Choice): u32 {
    if msg.command.Open? && choice.accept then newId else id
  }

  lemma EngineObeys(i: u32, l: Local, p: Peer, newId: u32, choice: DeviceEngine.Choice, cfg: Config)
    requires Sane(cfg) && Inv(i, l, cfg) && Enabled(i, l, DeviceHandles(newId, choice))
    requires p.inFlight ==> FlightKnown(l)
    ensures var msg := l.toDevice[0];
            var id := if l.rec.Some? then l.rec.value.log.deviceId else 0;
            TurnObeys(i, Taken(p, msg), IdAfter(id, msg, newId, choice),
                      DeviceEngine.Handle(l.devs, msg, newId, choice, cfg.deviceMax))
  {
    var msg, id := l.toDevice[0], l.rec.value.log.deviceId;
    assert msg in ToDevice(l) by {
      assert ToDevice(l)[0] == msg;
    }
    match msg.command {
      case Open =>
        assert id == 0 by {
          Beheaded(ToDevice(l));
        }
        OpenObeys(i, p, msg, newId, l.devs, choice, cfg.deviceMax);
      case Write => WriteObeys(i, p, id, msg, newId, l.devs, choice, cfg.deviceMax);
      case Okay => OkayObeys(i, p, id, msg, newId, l.devs, choice, cfg.deviceMax);
      case Close => CloseObeys(i, p, id, msg, newId, l.devs, choice, cfg.deviceMax);
      case _ =>
    }
  }

  lemma TurnIsBare(i: u32, l: Local, newId: u32, choice: DeviceEngine.Choice, cfg: Config)
    requires Sane(cfg) && l.rec.Some? && Enabled(i, l, DeviceHandles(newId, choice))
    ensures var h := DeviceEngine.Handle(l.devs, l.toDevice[0], newId, choice, cfg.deviceMax);
            var l', bare := Next(i, l, DeviceHandles(newId, choice), cfg), BareLocal(l);
            && BareLocal(l') == bare.(toDevice := l.toDevice[1..], toHost := l.toHost + h.replies)
            && l'.devs == h.streams && l'.rec.Some?
            && l'.rec.value.log.deviceId == IdAfter(l.rec.value.log.deviceId, l.toDevice[0], newId, choice)
  {
  }

  /** Where a turn leaves the two systems. */
  lemma TurnAbstracts(i: u32, l: Local, w: World, newId: u32, choice: DeviceEngine.Choice, cfg: Config)
    requires Sane(cfg) && Inv(i, l, cfg) && Enabled(i, l, DeviceHandles(newId, choice)) && Abstracts(w, l)
    requires MaySayAll(i, Taken(w.peer, l.toDevice[0]),
                       DeviceEngine.Handle(l.devs, l.toDevice[0], newId, choice, cfg.deviceMax).replies)
    ensures var replies := DeviceEngine.Handle(l.devs, l.toDevice[0], newId, choice, cfg.deviceMax).replies;
            var taken := Moved(i, w, Takes, cfg);
            Abstracts(World(taken.host.(toHost := taken.host.toHost + replies), SaidAll(i, taken.peer, replies)),
                      Next(i, l, DeviceHandles(newId, choice), cfg))
  {
    EngineObeys(i, l, w.peer, newId, choice, cfg);
    TurnIsBare(i, l, newId, choice, cfg);
  }

  /** A turn of the engine is a few moves of a device that keeps the rule. */
  lemma TurnIsMoves(i: u32, l: Local, w: World, newId: u32, choice: DeviceEngine.Choice, cfg: Config)
    requires Sane(cfg) && Inv(i, l, cfg) && Enabled(i, l, DeviceHandles(newId, choice)) && Abstracts(w, l)
    ensures exists moves :: Follows(i, w, moves, cfg)
                            && Abstracts(After(i, w, moves, cfg), Next(i, l, DeviceHandles(newId, choice), cfg))
  {
    var msg := l.toDevice[0];
    var replies := DeviceEngine.Handle(l.devs, msg, newId, choice, cfg.deviceMax).replies;
    EngineObeys(i, l, w.peer, newId, choice, cfg);
    SayingFollows(i, Moved(i, w, Takes, cfg), replies, cfg);
    MoveFirst(i, w, Takes, Saying(replies), cfg);
    TurnAbstracts(i, l, w, newId, choice, cfg);
  }

  lemma StepIsMoves(i: u32, l: Local, w: World, e: Event, cfg: Config)
    requires Sane(cfg) && Inv(i, l, cfg) && Enabled(i, l, e) && Abstracts(w, l)
    ensures exists moves :: Follows(i, w, moves, cfg) && Abstracts(After(i, w, moves, cfg), Next(i, l, e, cfg))
  {
    if e.DeviceHandles? {
      TurnIsMoves(i, l, w, e.newId, e.choice, cfg);
    } else {
      HostIsBare(i, l, e, cfg);
      OneMove(i, w, Host(e), cfg);
    }
  }

  /** What stream `i` sees of a session with the repository's engine is a run of this system. */
  lemma {:induction false} RunIsMoves(i: u32, s: System, w: World, es: seq<Event>, cfg: Config)
    requires Sane(cfg) && Good(s, cfg) && Runs(s, es, cfg) && Abstracts(w, Project(s, i))
    ensures exists moves :: Follows(i, w, moves, cfg)
                            && Abstracts(After(i, w, moves, cfg), Project(Exec(s, es, cfg), i))
    decreases |es|
  {
    if es == [] {
      assert Follows(i, w, [], cfg) && Abstracts(After(i, w, [], cfg), Project(Exec(s, es, cfg), i));
    } else {
      StepKeeps(s, es[0], cfg);
      var s1 := Step(s, es[0], cfg);
      var first := FirstMoves(i, s, w, es[0], cfg);
      var w1 := After(i, w, first, cfg);
      RunIsMoves(i, s1, w1, es[1..], cfg);
      var more :| Follows(i, w1, more, cfg) && Abstracts(After(i, w1, more, cfg), Project(Exec(s1, es[1..], cfg), i));
      FollowsJoin(i, w, first, more, cfg);
      assert Follows(i, w, first + more, cfg);
    }
  }

  lemma FirstMoves(i: u32, s: System, w: World, e: Event, cfg: Config) returns (moves: seq<Move>)
    requires Sane(cfg) && Good(s, cfg) && Can(s, e) && Abstracts(w, Project(s, i))
    ensures Follows(i, w, moves, cfg) && Abstracts(After(i, w, moves, cfg), Project(Step(s, e, cfg), i))
  {
    Projects(s, e, cfg, i);
    assert Inv(i, Project(s, i), cfg);
    match LocalEvent(s, e, i) {
      case None => moves := [];
      case Some(e') =>
        StepIsMoves(i, Project(s, i), w, e', cfg);
        moves :| Follows(i, w, moves, cfg) && Abstracts(After(i, w, moves, cfg), Next(i, Project(s, i), e', cfg));
    }
  }

  /** Every stream of every session with the engine is an instance: the bounds of
      `OneInFlightEachWay` are bounds on its queues. */
  lemma EngineIsAnInstance(s: System, cfg: Config, i: u32)
    requires Sane(cfg) && Reachable(s, cfg)
    ensures exists moves :: Follows(i, BEGIN, moves, cfg)
                            && After(i, BEGIN, moves, cfg).host == BareLocal(Project(s, i))
  {
    var es :| Runs(START, es, cfg) && Exec(START, es, cfg) == s;
    StartGood(cfg);
    assert Abstracts(BEGIN, Project(START, i));
    RunIsMoves(i, START, BEGIN, es, cfg);
  }
}
