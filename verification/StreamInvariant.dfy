/** What every step of one stream keeps. */
module StreamInvariant {
  import opened Bytes
  import opened Wire
  import opened StreamModel
  import opened StreamMachine
  import DeviceEngine

  function Count(ms: seq<Message>, c: Command): nat {
    if ms == [] then 0 else (if ms[0].command == c then 1 else 0) + Count(ms[1..], c)
  }

  lemma {:induction false} CountAppend(a: seq<Message>, b: seq<Message>, c: Command)
    ensures Count(a + b, c) == Count(a, c) + Count(b, c)
  {
    if a == [] {
      assert a + b == b;
    } else {
      CountAppend(a[1..], b, c);
      assert (a + b)[1..] == a[1..] + b;
    }
  }

  lemma {:induction false} WritesAppend(a: seq<Message>, b: seq<Message>)
    ensures Writes(a + b) == Writes(a) + Writes(b)
  {
    if a == [] {
      assert a + b == b;
    } else {
      WritesAppend(a[1..], b);
      assert (a + b)[0] == a[0] && (a + b)[1..] == a[1..] + b;
      Regrouped(if a[0].command.Write? then [a[0].payload] else [], Writes(a[1..]), Writes(b));
    }
  }

  lemma {:induction false} CountWrites(ms: seq<Message>)
    ensures |Writes(ms)| == Count(ms, Write)
  {
    if ms != [] {
      CountWrites(ms[1..]);
    }
  }

  /** Everything on its way to the device, in the order the device will see it. */
  function ToDevice(l: Local): seq<Message> {
    l.toDevice + l.outbox
  }

  /** Requests for which the owner waits. */
  function Requests(ms: seq<Message>): nat {
    Count(ms, Open) + Count(ms, Write)
  }

  predicate OutgoingOk(i: u32, deviceId: u32, m: Message) {
    && m.arg0 == i
    && match m.command
       case Open => m.arg1 == 0
       case Write => m.arg1 == deviceId != 0
       case Okay => m.arg1 == deviceId != 0
       case Close => m.arg1 == deviceId != 0
       case _ => false
  }

  predicate IncomingOk(i: u32, deviceId: u32, m: Message) {
    && m.arg1 == i
    && match m.command
       case Write => m.arg0 == deviceId != 0
       case Okay => m.arg0 == deviceId != 0
       case Close => m.arg0 == 0 || m.arg0 == deviceId
       case _ => false
  }

  /** Which messages can be where, and which device entries exist. `out` is everything on its way
      to the device, `inc` everything on its way to us. */
  predicate Shape(i: u32, id: u32, out: seq<Message>, inc: seq<Message>, devs: DeviceEngine.Streams) {
    && (forall m :: m in out ==> OutgoingOk(i, id, m))
    && (forall m :: m in inc ==> IncomingOk(i, id, m))
    && (forall d :: d in devs ==> d == id && d != 0 && devs[d].host == i)
    && (id != 0 ==> Count(out, Open) == 0)
    // a CLSE from the device is its last word
    && (forall k :: 0 <= k < |inc| && inc[k].command.Close? ==> k == |inc| - 1)
    && (Count(inc, Close) > 0 ==> devs == map[] && Count(out, Open) == 0)
  }

  /** The owner, its stream state and the registry agree. */
  predicate OwnerOk(r: Rec) {
    var v := r.view;
    && (v.remote == 0 || v.remote == r.log.deviceId)
    && (v.remote == 0 <==> v.acks == 0)
    && (r.owner.Idle? || r.owner.Writing? ==> v.remote != 0)
    && (!r.owner.Gone? && !v.closed ==> r.registered && v.sender)
    && (v.closed ==> !v.sender && !r.registered)
    && (v.receiver <==> !r.owner.Gone?)
    && (r.owner.Gone? ==> v.queue == [])
    && (Blocked(r) ==> v.acks >= Seen(r))
    && (Blocked(r) && (v.acks > Seen(r) || v.closed) ==> v.permit)
    && (r.owner.Opening? ==> r.log.offered == [])
    && (r.log.ended ==> v.closed || r.owner.Gone?)
  }

  /** The stream can still be used by its owner. */
  predicate Live(r: Rec) {
    !r.owner.Gone? && !r.view.closed
  }

  /** One request outstanding while the owner waits, none while an open stream is idle, and an
      unanswered wait always has its answer under way. */
  predicate Flow(out: seq<Message>, inc: seq<Message>, devs: DeviceEngine.Streams, up: bool, r: Rec) {
    var pending := Requests(out) + Count(inc, Okay);
    && pending <= 1
    && (Blocked(r) ==> pending + r.view.acks <= Seen(r) + 1)
    && (r.owner.Idle? && !r.view.closed ==> pending == 0)
    && (Blocked(r) && !r.view.closed && r.view.acks == Seen(r) && up ==> pending == 1 || Count(inc, Close) > 0)
    && (Live(r) && Count(inc, Close) == 0 && r.log.deviceId != 0 ==> r.log.deviceId in devs)
    && (Count(out, Close) > 0 ==> !Live(r))
  }

  function Unread(out: seq<Message>, inc: seq<Message>, r: Rec): nat {
    Count(inc, Write) + |r.view.queue| + Count(out, Okay)
  }

  /** Back-pressure: one payload under way to the caller, counting its acknowledgement. */
  predicate Pressure(out: seq<Message>, inc: seq<Message>, devs: DeviceEngine.Streams, r: Rec) {
    && Unread(out, inc, r) <= 1
    && (r.log.deviceId in devs && !devs[r.log.deviceId].inFlight ==> Unread(out, inc, r) == 0)
  }

  /** Every WRTE posted so far has been consumed by the device's handler. */
  predicate Answered(inc: seq<Message>, r: Rec) {
    || Count(inc, Okay) > 0
    || (Blocked(r) && r.view.acks > Seen(r))
    || (r.owner.Idle? && !r.view.closed)
  }

  /** Bytes towards the device. */
  predicate Uplink(out: seq<Message>, inc: seq<Message>, devs: DeviceEngine.Streams, writerUp: bool, r: Rec) {
    var log := r.log;
    var pending := Flatten(Writes(out));
    && log.accepted <= log.posted <= log.offered
    && (log.deviceId == 0 ==> log.posted == [])
    && (log.deviceId in devs && (writerUp || Count(out, Write) > 0) ==> log.accepted + pending == log.posted)
    && (r.owner.Writing? ==> log.posted + r.owner.rest == log.offered)
    && (r.owner.Idle? && !r.view.closed && writerUp ==> log.posted == log.offered)
    && (Answered(inc, r) ==> log.accepted == log.posted)
  }

  /** Chunks towards the caller. */
  predicate Downlink(out: seq<Message>, inc: seq<Message>, devs: DeviceEngine.Streams, writerUp: bool, r: Rec) {
    var log := r.log;
    && log.emitted <= log.produced
    && (log.deviceId == 0 ==> log.produced == [])
    && (log.deviceId in devs ==> log.emitted + devs[log.deviceId].queue == log.produced)
    && log.delivered <= log.emitted
    && (Live(r) ==> log.delivered + Writes(inc) == log.emitted)
    && (Live(r) && Count(inc, Close) > 0 ==> log.emitted == log.produced)
    && (log.ended ==> (r.owner.Gone? || log.delivered == log.produced) && devs == map[] && Count(out, Open) == 0)
    && log.taken <= log.delivered
    && (!r.owner.Gone? ==> log.taken + r.view.queue == log.delivered)
    && (writerUp ==> log.handed == log.taken)
  }

  predicate TraceStep(i: u32, remote: u32, max: nat, m: Message) {
    && m.arg0 == i && m.arg1 == remote != 0
    && (m.command.Write? ==> 0 < |m.payload| <= max)
    && (m.command.Okay? ==> m.payload == [])
    && (m.command.Write? || m.command.Okay?)
  }

  predicate TraceStart(i: u32, m: Message) {
    && m.command.Open? && m.arg0 == i && m.arg1 == 0
    && |m.payload| > 0 && m.payload[|m.payload| - 1] == 0
    && 0 !in m.payload[..|m.payload| - 1]
  }

  predicate TraceEnd(t: seq<Message>) {
    |t| > 1 && t[|t| - 1].command.Close?
  }

  /** OPEN (WRTE | OKAY)* CLSE?, everything after OPEN under one non-zero remote id. */
  predicate Trace(i: u32, t: seq<Message>, posted: Data, remote: u32, closed: bool, gone: bool, max: nat) {
    && (t == [] ==> gone)
    && (t != [] ==> TraceStart(i, t[0]))
    && (TraceEnd(t) ==> t[|t| - 1] == Empty(Close, i, remote) && remote != 0 && closed)
    && (forall k :: 0 < k < |t| && !(k == |t| - 1 && TraceEnd(t)) ==> TraceStep(i, remote, max, t[k]))
    && Flatten(Writes(t)) == posted
  }

  predicate RecInv(i: u32, out: seq<Message>, inc: seq<Message>, devs: DeviceEngine.Streams,
                   writerUp: bool, readerUp: bool, r: Rec, max: nat) {
    && Shape(i, r.log.deviceId, out, inc, devs)
    && OwnerOk(r)
    && Flow(out, inc, devs, writerUp && readerUp, r)
    && Pressure(out, inc, devs, r)
    && Uplink(out, inc, devs, writerUp, r)
    && Downlink(out, inc, devs, writerUp, r)
    && Trace(i, r.log.posts, r.log.posted, r.view.remote, r.view.closed, r.owner.Gone?, max)
  }

  predicate Inv(i: u32, l: Local, cfg: Config) {
    match l.rec
    case None => l.outbox == [] && l.toDevice == [] && l.toHost == [] && l.devs == map[]
    case Some(r) => RecInv(i, ToDevice(l), l.toHost, l.devs, l.writerUp, l.readerUp, r, cfg.maxPayload)
  }
}
