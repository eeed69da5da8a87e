/** A session with any number of streams: one registry, one outbox, one wire in each direction and
    one device. Projected onto a local id, each step is a step of `StreamMachine` or none at all. */
module SessionSystem {
  import opened Bytes
  import opened Wire
  import opened StreamModel
  import opened StreamMachine
  import opened StreamInvariant
  import opened StreamPreservedPeer
  import opened StreamIds
  import DeviceEngine

  datatype System = System(
    streams: map<u32, Rec>, outbox: seq<Message>, toDevice: seq<Message>, toHost: seq<Message>,
    devs: DeviceEngine.Streams, nextDev: u32, writerUp: bool, readerUp: bool, opens: nat)

  /** The device numbers its streams from 100. */
  const START := System(map[], [], [], [], map[], 100, true, true, 0)

  /** The messages of `ms` that stream `i` sent. */
  function From(ms: seq<Message>, i: u32): seq<Message> {
    if ms == [] then [] else (if ms[0].arg0 == i then [ms[0]] else []) + From(ms[1..], i)
  }

  /** The messages of `ms` addressed to stream `i`. */
  function To(ms: seq<Message>, i: u32): seq<Message> {
    if ms == [] then [] else (if ms[0].arg1 == i then [ms[0]] else []) + To(ms[1..], i)
  }

  function Restrict(devs: DeviceEngine.Streams, i: u32): DeviceEngine.Streams {
    map d | d in devs && devs[d].host == i :: devs[d]
  }

  function RecordOf(s: System, i: u32): Option<Rec> {
    if i in s.streams then Some(s.streams[i]) else None
  }

  function Project(s: System, i: u32): Local {
    Local(RecordOf(s, i), From(s.outbox, i), From(s.toDevice, i), To(s.toHost, i), Restrict(s.devs, i),
          s.writerUp, s.readerUp)
  }

  /** `open_stream` draws the next local id; the model excludes drawing an id that an earlier,
      still living stream uses. `DeviceHandles` excludes overflow of the device's counter. */
  predicate Can(s: System, e: Event) {
    match e
    case OpenCall(id, service) => id == IdOf(s.opens) && 0 !in service && Reusable(Project(s, id))
    case OwnerCall(id, call) => id in s.streams && CanCall(s.streams[id], call)
    case WriterMoves => s.writerUp && s.outbox != []
    case DeviceHandles(newId, _) => s.toDevice != [] && newId == s.nextDev < U32_MAX
    case ReaderDispatches => s.readerUp && s.toHost != []
    case WriterStops => true
    case ReaderStops => true
  }

  function CloseAll(streams: map<u32, Rec>): map<u32, Rec> {
    map i | i in streams :: StopReader(streams[i])
  }

  function Step(s: System, e: Event, cfg: Config): System
    requires Can(s, e) && Sane(cfg)
  {
    match e
    case OpenCall(id, service) =>
      var (r, posts) := OpenStream(id, service, s.writerUp);
      s.(streams := s.streams[id := r], outbox := s.outbox + posts, opens := s.opens + 1)
    case OwnerCall(id, call) =>
      var (r, posts) := OwnerStep(id, s.streams[id], call, s.writerUp, cfg.maxPayload);
      s.(streams := s.streams[id := r], outbox := s.outbox + posts)
    case WriterMoves =>
      s.(outbox := s.outbox[1..], toDevice := s.toDevice + [s.outbox[0]])
    case DeviceHandles(newId, choice) =>
      var msg := s.toDevice[0];
      var h := DeviceEngine.Handle(s.devs, msg, newId, choice, cfg.deviceMax);
      s.(streams := if msg.arg0 !in s.streams then s.streams else
           var r := s.streams[msg.arg0];
           var log := LogDevice(r.log, msg.arg1 in s.devs, msg, newId, choice, h.replies, cfg.deviceMax);
           s.streams[msg.arg0 := r.(log := log)],
         toDevice := s.toDevice[1..], devs := h.streams, toHost := s.toHost + h.replies,
         nextDev := if msg.command.Open? && choice.accept then s.nextDev + 1 else s.nextDev)
    case ReaderDispatches =>
      var msg := s.toHost[0];
      var (rec, posts, stops) := ReaderStep(RecordOf(s, msg.arg1), msg, s.writerUp);
      var streams := if rec.Some? then s.streams[msg.arg1 := rec.value] else s.streams;
      s.(streams := if stops then CloseAll(streams) else streams,
         toHost := s.toHost[1..], outbox := s.outbox + posts, readerUp := s.readerUp && !stops)
    case WriterStops => s.(writerUp := false, outbox := [])
    case ReaderStops => s.(readerUp := false, streams := CloseAll(s.streams))
  }

  /** The step that stream `i` sees. */
  function LocalEvent(s: System, e: Event, i: u32): Option<Event>
    requires Can(s, e)
  {
    match e
    case OpenCall(id, _) => if id == i then Some(e) else None
    case OwnerCall(id, _) => if id == i then Some(e) else None
    case WriterMoves => if s.outbox[0].arg0 == i then Some(e) else None
    case DeviceHandles(_, _) => if s.toDevice[0].arg0 == i then Some(e) else None
    case ReaderDispatches =>
      if s.toHost[0].arg1 == i then Some(e)
      else if ReaderStep(RecordOf(s, s.toHost[0].arg1), s.toHost[0], s.writerUp).2 then Some(ReaderStops)
      else None
    case _ => Some(e)
  }

  /** No two streams share a device id. */
  predicate IdsApart(s: System) {
    && 100 <= s.nextDev
    && (forall i :: i in s.streams ==> s.streams[i].log.deviceId < s.nextDev)
    && (forall i, j :: i in s.streams && j in s.streams && i != j ==>
          s.streams[i].log.deviceId == 0 || s.streams[i].log.deviceId != s.streams[j].log.deviceId)
  }

  /** Every stream keeps its invariant. */
  ghost predicate Good(s: System, cfg: Config) {
    && (forall i: u32 :: Inv(i, Project(s, i), cfg))
    && IdsApart(s)
    && (forall d :: d in s.devs ==> d < s.nextDev)
    && (forall i :: i in s.streams ==> exists k :: 0 <= k < s.opens && i == IdOf(k))
  }

  lemma {:induction false} FromAppend(a: seq<Message>, b: seq<Message>, i: u32)
    ensures From(a + b, i) == From(a, i) + From(b, i)
  {
    if a == [] {
      assert a + b == b;
    } else {
      var own := if a[0].arg0 == i then [a[0]] else [];
      assert (a + b)[0] == a[0] && (a + b)[1..] == a[1..] + b;
      FromAppend(a[1..], b, i);
      assert own + (From(a[1..], i) + From(b, i)) == (own + From(a[1..], i)) + From(b, i);
    }
  }

  lemma {:induction false} ToAppend(a: seq<Message>, b: seq<Message>, i: u32)
    ensures To(a + b, i) == To(a, i) + To(b, i)
  {
    if a == [] {
      assert a + b == b;
    } else {
      var own := if a[0].arg1 == i then [a[0]] else [];
      assert (a + b)[0] == a[0] && (a + b)[1..] == a[1..] + b;
      ToAppend(a[1..], b, i);
      assert own + (To(a[1..], i) + To(b, i)) == (own + To(a[1..], i)) + To(b, i);
    }
  }

  lemma {:induction false} AllFrom(ms: seq<Message>, i: u32, j: u32)
    requires forall m :: m in ms ==> m.arg0 == i
    ensures From(ms, j) == if i == j then ms else []
  {
    if ms != [] {
      AllFrom(ms[1..], i, j);
      assert ms[0] in ms;
      assert ms == [ms[0]] + ms[1..];
    }
  }

  lemma {:induction false} AllTo(ms: seq<Message>, i: u32, j: u32)
    requires forall m :: m in ms ==> m.arg1 == i
    ensures To(ms, j) == if i == j then ms else []
  {
    if ms != [] {
      AllTo(ms[1..], i, j);
      assert ms[0] in ms;
      assert ms == [ms[0]] + ms[1..];
    }
  }

  /** An owner only posts messages of its own stream. */
  lemma OwnerPosts(id: u32, r: Rec, call: Call, writerUp: bool, max: nat, i: u32)
    requires CanCall(r, call)
    ensures From(OwnerStep(id, r, call, writerUp, max).1, i) ==
            if i == id then OwnerStep(id, r, call, writerUp, max).1 else []
  {
    AllFrom(OwnerStep(id, r, call, writerUp, max).1, id, i);
  }
}
