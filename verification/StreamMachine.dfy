/** The step system of one stream: its owner, its registry entry, the messages about it in the
    outbox and on both wires, and the device's side of it. Everything that runs between two awaits
    is one step. `System` runs any number of streams over shared queues and projects onto this. */
module StreamMachine {
  import opened Bytes
  import opened Wire
  import opened StreamModel
  import DeviceEngine

  /** The negotiated payload limit of the host and the device's own limit. */
  datatype Config = Config(maxPayload: nat, deviceMax: nat)

  predicate Sane(cfg: Config) {
    cfg.maxPayload > 0 && cfg.deviceMax > 0
  }

  datatype Event =
    | OpenCall(id: u32, service: Data)
    | OwnerCall(id: u32, call: Call)
    | WriterMoves
    | DeviceHandles(newId: u32, choice: DeviceEngine.Choice)
    | ReaderDispatches
    | WriterStops
    | ReaderStops

  datatype Local = Local(
    rec: Option<Rec>, outbox: seq<Message>, toDevice: seq<Message>, toHost: seq<Message>,
    devs: DeviceEngine.Streams, writerUp: bool, readerUp: bool)

  /** Payloads of the WRTEs among `ms`, in order. */
  function Writes(ms: seq<Message>): seq<Data> {
    if ms == [] then []
    else (if ms[0].command.Write? then [ms[0].payload] else []) + Writes(ms[1..])
  }

  function LogDevice(log: Log, known: bool, msg: Message, newId: u32, choice: DeviceEngine.Choice,
                     replies: seq<Message>, max: nat): Log
    requires max > 0
  {
    var sent := log.(emitted := log.emitted + Writes(replies));
    match msg.command
    case Open =>
      if choice.accept then
        sent.(deviceId := newId, produced := log.produced + DeviceEngine.Chunked(choice.replies, max))
      else sent
    case Write =>
      if known then
        sent.(accepted := log.accepted + msg.payload,
              produced := log.produced + DeviceEngine.Chunked(choice.replies, max))
      else sent
    case _ => sent
  }

  function LogDispatch(log: Log, e: Entry, msg: Message): Log {
    match msg.command
    case Write =>
      if e.registered && Listening(e.view) then log.(delivered := log.delivered + [msg.payload]) else log
    case Close => if e.registered then log.(ended := true) else log
    case _ => log
  }

  function StopReader(r: Rec): Rec {
    var e := CloseEntry(Entry(r.view, r.registered));
    r.(view := e.view, registered := e.registered)
  }

  /** The reader on the message at the head of its wire: record, posted replies, reader stopped. */
  function ReaderStep(rec: Option<Rec>, msg: Message, writerUp: bool): (Option<Rec>, seq<Message>, bool)
  {
    var e := if rec.Some? then Entry(rec.value.view, rec.value.registered) else Entry(FRESH_VIEW, false);
    var d := Dispatch(e, msg);
    var stops := d.stop || (d.replies != [] && !writerUp);
    var posts := if writerUp then d.replies else [];
    match rec
    case None => (None, posts, stops)
    case Some(r) =>
      var r' := r.(view := d.entry.view, registered := d.entry.registered, log := LogDispatch(r.log, e, msg));
      (Some(if stops then StopReader(r') else r'), posts, stops)
  }

  /** Nothing left over from an earlier stream with this id can be confused with a new one. */
  predicate Reusable(l: Local) {
    && l.outbox == [] && l.toDevice == [] && l.toHost == [] && l.devs == map[]
    && (l.rec.Some? ==> l.rec.value.owner.Gone? && !l.rec.value.registered)
  }

  predicate Enabled(i: u32, l: Local, e: Event) {
    match e
    case OpenCall(id, service) => id == i && 0 !in service && Reusable(l)
    case OwnerCall(id, call) => id == i && l.rec.Some? && CanCall(l.rec.value, call)
    case WriterMoves => l.writerUp && l.outbox != []
    case DeviceHandles(newId, _) => l.toDevice != [] && newId != 0 && newId !in l.devs
    case ReaderDispatches => l.readerUp && l.toHost != []
    case WriterStops => true
    case ReaderStops => true
  }

  function Next(i: u32, l: Local, e: Event, cfg: Config): Local
    requires Enabled(i, l, e) && Sane(cfg)
  {
    match e
    case OpenCall(_, service) =>
      var (r, posts) := OpenStream(i, service, l.writerUp);
      l.(rec := Some(r), outbox := l.outbox + posts)
    case OwnerCall(_, call) =>
      var (r, posts) := OwnerStep(i, l.rec.value, call, l.writerUp, cfg.maxPayload);
      l.(rec := Some(r), outbox := l.outbox + posts)
    case WriterMoves =>
      l.(outbox := l.outbox[1..], toDevice := l.toDevice + [l.outbox[0]])
    case DeviceHandles(newId, choice) =>
      var msg := l.toDevice[0];
      var h := DeviceEngine.Handle(l.devs, msg, newId, choice, cfg.deviceMax);
      var rec := if l.rec.None? then None else
        Some(l.rec.value.(log := LogDevice(l.rec.value.log, msg.arg1 in l.devs, msg, newId, choice,
                                           h.replies, cfg.deviceMax)));
      l.(rec := rec, toDevice := l.toDevice[1..], devs := h.streams, toHost := l.toHost + h.replies)
    case ReaderDispatches =>
      var (rec, posts, stops) := ReaderStep(l.rec, l.toHost[0], l.writerUp);
      l.(rec := rec, toHost := l.toHost[1..], outbox := l.outbox + posts,
         readerUp := l.readerUp && !stops)
    case WriterStops => l.(writerUp := false, outbox := [])
    case ReaderStops =>
      l.(readerUp := false, rec := if l.rec.None? then None else Some(StopReader(l.rec.value)))
  }
}
