/** The steps of the device and of the reader task keep the invariant of a stream. */
module StreamPreservedPeer {
  import opened Bytes
  import opened Wire
  import opened StreamModel
  import opened StreamMachine
  import opened StreamInvariant
  import opened StreamPreserved
  import DeviceEngine

  /** All that the invariant reads of the way to the device, when its head is consumed. */
  lemma Consume(out: seq<Message>)
    requires out != []
    ensures forall c :: Count(out[1..], c) == Count(out, c) - if out[0].command == c then 1 else 0
    ensures Writes(out) == (if out[0].command.Write? then [out[0].payload] else []) + Writes(out[1..])
    ensures Flatten(Writes(out)) == (if out[0].command.Write? then out[0].payload else []) + Flatten(Writes(out[1..]))
    ensures forall m :: m in out[1..] ==> m in out
  {
    assert out == [out[0]] + out[1..];
    if out[0].command.Write? {
      assert Writes(out)[1..] == Writes(out[1..]);
    } else {
      assert Writes(out) == Writes(out[1..]);
    }
  }

  /** A stream of the device never has a CLSE behind it on the wire. */
  lemma NoCloseYet(i: u32, id: u32, out: seq<Message>, inc: seq<Message>, devs: DeviceEngine.Streams)
    requires Shape(i, id, out, inc, devs) && id in devs
    ensures forall m :: m in inc ==> !m.command.Close?
    ensures Count(inc, Close) == 0
  {
    CloseCounted(inc);
  }

  lemma {:induction false} CloseCounted(ms: seq<Message>)
    ensures Count(ms, Close) > 0 <==> exists m :: m in ms && m.command.Close?
  {
    if ms != [] {
      CloseCounted(ms[1..]);
      assert forall m :: m in ms <==> m == ms[0] || m in ms[1..];
    }
  }

  /** The device's next payload goes on the wire. */
  lemma PumpWriteKeeps(i: u32, out: seq<Message>, inc: seq<Message>, devs: DeviceEngine.Streams,
                       writerUp: bool, readerUp: bool, r: Rec, r': Rec, max: nat)
    requires RecInv(i, out, inc, devs, writerUp, readerUp, r, max)
    requires r.log.deviceId in devs && !devs[r.log.deviceId].inFlight && devs[r.log.deviceId].queue != []
    requires r' == r.(log := r.log.(emitted := r.log.emitted + [devs[r.log.deviceId].queue[0]]))
    ensures var s := devs[r.log.deviceId];
            RecInv(i, out, inc + [Message(Write, r.log.deviceId, s.host, s.queue[0])],
                   devs[r.log.deviceId := s.(queue := s.queue[1..], inFlight := true)], writerUp, readerUp, r', max)
  {
    var id := r.log.deviceId;
    var s := devs[id];
    var m := Message(Write, id, s.host, s.queue[0]);
    var devs' := devs[id := s.(queue := s.queue[1..], inFlight := true)];
    AppendOne(inc, m);
    NoCloseYet(i, id, out, inc, devs);
    assert s.queue == [s.queue[0]] + s.queue[1..];
    assert r.log.emitted + s.queue == r'.log.emitted + s.queue[1..];
    assert Shape(i, id, out, inc + [m], devs');
    assert Flow(out, inc + [m], devs', writerUp && readerUp, r');
    assert Pressure(out, inc + [m], devs', r');
    assert Uplink(out, inc + [m], devs', writerUp, r');
    assert Downlink(out, inc + [m], devs', writerUp, r');
  }

  /** The device has nothing left to say and closes. */
  lemma PumpCloseKeeps(i: u32, out: seq<Message>, inc: seq<Message>, devs: DeviceEngine.Streams,
                       writerUp: bool, readerUp: bool, r: Rec, max: nat)
    requires RecInv(i, out, inc, devs, writerUp, readerUp, r, max)
    requires r.log.deviceId in devs && !devs[r.log.deviceId].inFlight && devs[r.log.deviceId].queue == []
    ensures RecInv(i, out, inc + [Empty(Close, r.log.deviceId, i)], devs - {r.log.deviceId}, writerUp, readerUp, r, max)
  {
    var id := r.log.deviceId;
    var m := Empty(Close, id, i);
    var devs' := devs - {id};
    AppendOne(inc, m);
    NoCloseYet(i, id, out, inc, devs);
    assert devs' == map[];
    assert Shape(i, id, out, inc + [m], devs');
    assert Flow(out, inc + [m], devs', writerUp && readerUp, r);
    assert Pressure(out, inc + [m], devs', r);
    assert Uplink(out, inc + [m], devs', writerUp, r);
    assert Downlink(out, inc + [m], devs', writerUp, r);
  }

  lemma PumpKeeps(i: u32, out: seq<Message>, inc: seq<Message>, devs: DeviceEngine.Streams,
                  writerUp: bool, readerUp: bool, r: Rec, r': Rec, finished: bool, max: nat)
    requires RecInv(i, out, inc, devs, writerUp, readerUp, r, max) && r.log.deviceId in devs
    requires var h := DeviceEngine.Pump(devs, r.log.deviceId, finished);
             r' == r.(log := r.log.(emitted := r.log.emitted + Writes(h.replies)))
    ensures var h := DeviceEngine.Pump(devs, r.log.deviceId, finished);
            RecInv(i, out, inc + h.replies, h.streams, writerUp, readerUp, r', max)
  {
    var id := r.log.deviceId;
    var s := devs[id];
    if s.inFlight || (s.queue == [] && !finished) {
      assert r' == r;
      assert inc + [] == inc;
    } else if s.queue != [] {
      var m := Message(Write, id, s.host, s.queue[0]);
      assert Writes([m]) == [m.payload] + Writes([]);
      PumpWriteKeeps(i, out, inc, devs, writerUp, readerUp, r, r', max);
    } else {
      assert Writes([Empty(Close, id, i)]) == Writes([]);
      assert r' == r;
      PumpCloseKeeps(i, out, inc, devs, writerUp, readerUp, r, max);
    }
  }

  /** While OPEN is on its way the device knows nothing of the stream. */
  lemma OpenUnderWay(i: u32, out: seq<Message>, inc: seq<Message>, devs: DeviceEngine.Streams,
                     writerUp: bool, readerUp: bool, r: Rec, max: nat)
    requires RecInv(i, out, inc, devs, writerUp, readerUp, r, max) && out != [] && out[0].command.Open?
    ensures r.log.deviceId == 0 && devs == map[] && Count(inc, Close) == 0 && Count(inc, Okay) == 0
    ensures r.view.remote == 0 && r.view.acks == 0 && !r.log.ended
    ensures forall m :: m in inc ==> !m.command.Close?
    ensures Count(out, Open) == 1 && forall m :: m in out ==> m.command.Open?
    ensures Count(out, Write) == Count(out, Okay) == Count(out, Close) == 0 && Writes(out) == []
    ensures Writes(inc) == [] && Count(inc, Write) == 0 && r.view.queue == []
  {
    Consume(out);
    CloseCounted(inc);
    OnlyOpen(i, out);
    NothingReceived(i, inc);
  }

  lemma NothingReceived(i: u32, inc: seq<Message>)
    requires forall m :: m in inc ==> IncomingOk(i, 0, m)
    ensures Count(inc, Write) == Count(inc, Okay) == 0 && Writes(inc) == []
  {
    if inc != [] {
      NothingReceived(i, inc[1..]);
      assert inc[0] in inc;
    }
  }

  /** OPEN is accepted: the stream exists on the device and its OKAY is on the wire. */
  lemma AcceptKeeps(i: u32, out: seq<Message>, inc: seq<Message>, devs: DeviceEngine.Streams,
                    writerUp: bool, readerUp: bool, r: Rec, r': Rec, newId: u32, chunks: seq<Data>, max: nat)
    requires RecInv(i, out, inc, devs, writerUp, readerUp, r, max)
    requires out != [] && out[0].command.Open? && newId != 0
    requires r' == r.(log := r.log.(deviceId := newId, produced := r.log.produced + chunks))
    ensures RecInv(i, out[1..], inc + [Empty(Okay, newId, i)],
                   devs[newId := DeviceEngine.DevStream(i, chunks, false)], writerUp, readerUp, r', max)
  {
    OpenUnderWay(i, out, inc, devs, writerUp, readerUp, r, max);
    Consume(out);
    AppendOne(inc, Empty(Okay, newId, i));
    AcceptShape(i, out, inc, newId, chunks);
    AcceptData(i, out, inc, devs, writerUp, r, r', newId, chunks);
    var added := DeviceEngine.DevStream(i, chunks, false);
    assert devs[newId := added] == map[newId := added];
  }

  lemma AcceptShape(i: u32, out: seq<Message>, inc: seq<Message>, newId: u32, chunks: seq<Data>)
    requires Shape(i, 0, out, inc, map[]) && newId != 0 && Count(out, Open) == 1
    requires out != [] && forall m :: m in out ==> m.command.Open?
    requires forall m :: m in inc ==> !m.command.Close?
    ensures Shape(i, newId, out[1..], inc + [Empty(Okay, newId, i)],
                  map[newId := DeviceEngine.DevStream(i, chunks, false)])
  {
    var inc' := inc + [Empty(Okay, newId, i)];
    Consume(out);
    CloseCounted(inc');
    OnlyOpenLeft(out[1..]);
    forall m | m in inc' ensures IncomingOk(i, newId, m) {
      assert m in inc ==> IncomingOk(i, 0, m);
    }
  }

  lemma OnlyOpenLeft(out: seq<Message>)
    requires forall m :: m in out ==> m.command.Open?
    ensures Count(out, Open) == |out|
  {
    if out != [] {
      OnlyOpenLeft(out[1..]);
      assert out[0] in out;
    }
  }

  lemma AcceptData(i: u32, out: seq<Message>, inc: seq<Message>, devs: DeviceEngine.Streams, writerUp: bool,
                   r: Rec, r': Rec, newId: u32, chunks: seq<Data>)
    requires Uplink(out, inc, devs, writerUp, r) && Downlink(out, inc, devs, writerUp, r)
    requires out != [] && newId != 0 && r.log.deviceId == 0 && devs == map[]
    requires Count(inc, Close) == 0 && !r.log.ended && Writes(out) == []
    requires r' == r.(log := r.log.(deviceId := newId, produced := r.log.produced + chunks))
    ensures var inc' := inc + [Empty(Okay, newId, i)];
            var devs' := map[newId := DeviceEngine.DevStream(i, chunks, false)];
            && Uplink(out[1..], inc', devs', writerUp, r')
            && Downlink(out[1..], inc', devs', writerUp, r')
  {
    Consume(out);
    AppendOne(inc, Empty(Okay, newId, i));
  }

  /** Before the device has given an id, OPEN is all there is on the way to it. */
  lemma OnlyOpen(i: u32, out: seq<Message>)
    requires forall m :: m in out ==> OutgoingOk(i, 0, m)
    ensures forall m :: m in out ==> m.command.Open?
    ensures Count(out, Write) == Count(out, Okay) == Count(out, Close) == 0
    ensures Writes(out) == []
  {
    if out != [] {
      OnlyOpen(i, out[1..]);
      assert out[0] in out;
    }
  }

  lemma RefuseKeeps(i: u32, out: seq<Message>, inc: seq<Message>, devs: DeviceEngine.Streams,
                    writerUp: bool, readerUp: bool, r: Rec, max: nat)
    requires RecInv(i, out, inc, devs, writerUp, readerUp, r, max) && out != [] && out[0].command.Open?
    ensures RecInv(i, out[1..], inc + [Empty(Close, 0, i)], devs, writerUp, readerUp, r, max)
  {
    OpenUnderWay(i, out, inc, devs, writerUp, readerUp, r, max);
    Consume(out);
    RefuseParts(i, out, inc, writerUp, writerUp && readerUp, r);
  }

  lemma RefuseParts(i: u32, out: seq<Message>, inc: seq<Message>, writerUp: bool, up: bool, r: Rec)
    requires Shape(i, 0, out, inc, map[]) && Flow(out, inc, map[], up, r) && Pressure(out, inc, map[], r)
    requires Uplink(out, inc, map[], writerUp, r) && Downlink(out, inc, map[], writerUp, r)
    requires out != [] && out[0].command.Open? && r.log.deviceId == 0 && Count(out, Open) == 1
    requires forall m :: m in inc ==> !m.command.Close?
    ensures var inc' := inc + [Empty(Close, 0, i)];
            && Shape(i, 0, out[1..], inc', map[]) && Flow(out[1..], inc', map[], up, r)
            && Pressure(out[1..], inc', map[], r)
            && Uplink(out[1..], inc', map[], writerUp, r) && Downlink(out[1..], inc', map[], writerUp, r)
  {
    Consume(out);
    AppendOne(inc, Empty(Close, 0, i));
  }

  /** The handler takes a WRTE and the device acknowledges it. */
  lemma TakeKeeps(i: u32, out: seq<Message>, inc: seq<Message>, devs: DeviceEngine.Streams,
                  writerUp: bool, readerUp: bool, r: Rec, r': Rec, chunks: seq<Data>, max: nat)
    requires RecInv(i, out, inc, devs, writerUp, readerUp, r, max)
    requires out != [] && out[0].command.Write? && r.log.deviceId in devs
    requires r' == r.(log := r.log.(accepted := r.log.accepted + out[0].payload, produced := r.log.produced + chunks))
    ensures var s := devs[r.log.deviceId];
            RecInv(i, out[1..], inc + [Empty(Okay, r.log.deviceId, i)],
                   devs[r.log.deviceId := s.(queue := s.queue + chunks)], writerUp, readerUp, r', max)
  {
    TakeFlowKeeps(i, out, inc, devs, writerUp, readerUp, r, r', chunks, max);
    TakeBytesKeep(i, out, inc, devs, writerUp, readerUp, r, r', chunks, max);
  }

  lemma TakeFlowKeeps(i: u32, out: seq<Message>, inc: seq<Message>, devs: DeviceEngine.Streams,
                      writerUp: bool, readerUp: bool, r: Rec, r': Rec, chunks: seq<Data>, max: nat)
    requires RecInv(i, out, inc, devs, writerUp, readerUp, r, max)
    requires out != [] && out[0].command.Write? && r.log.deviceId in devs
    requires r' == r.(log := r.log.(accepted := r.log.accepted + out[0].payload, produced := r.log.produced + chunks))
    ensures var s, inc' := devs[r.log.deviceId], inc + [Empty(Okay, r.log.deviceId, i)];
            var devs' := devs[r.log.deviceId := s.(queue := s.queue + chunks)];
            && Shape(i, r.log.deviceId, out[1..], inc', devs')
            && Flow(out[1..], inc', devs', writerUp && readerUp, r')
            && Pressure(out[1..], inc', devs', r')
  {
    Consume(out);
    AppendOne(inc, Empty(Okay, r.log.deviceId, i));
    NoCloseYet(i, r.log.deviceId, out, inc, devs);
  }

  lemma TakeBytesKeep(i: u32, out: seq<Message>, inc: seq<Message>, devs: DeviceEngine.Streams,
                      writerUp: bool, readerUp: bool, r: Rec, r': Rec, chunks: seq<Data>, max: nat)
    requires RecInv(i, out, inc, devs, writerUp, readerUp, r, max)
    requires out != [] && out[0].command.Write? && r.log.deviceId in devs
    requires r' == r.(log := r.log.(accepted := r.log.accepted + out[0].payload, produced := r.log.produced + chunks))
    ensures var s, inc' := devs[r.log.deviceId], inc + [Empty(Okay, r.log.deviceId, i)];
            var devs' := devs[r.log.deviceId := s.(queue := s.queue + chunks)];
            && Uplink(out[1..], inc', devs', writerUp, r')
            && Downlink(out[1..], inc', devs', writerUp, r')
  {
    Consume(out);
    AppendOne(inc, Empty(Okay, r.log.deviceId, i));
    NoCloseYet(i, r.log.deviceId, out, inc, devs);
    CountWrites(out[1..]);
    assert Writes(out[1..]) == [];
    assert r'.log.accepted == r.log.posted;
  }

  /** A message for a stream the device no longer has is dropped. */
  lemma DropKeeps(i: u32, out: seq<Message>, inc: seq<Message>, devs: DeviceEngine.Streams,
                  writerUp: bool, readerUp: bool, r: Rec, max: nat)
    requires RecInv(i, out, inc, devs, writerUp, readerUp, r, max)
    requires out != [] && !out[0].command.Open? && r.log.deviceId !in devs
    ensures RecInv(i, out[1..], inc, devs, writerUp, readerUp, r, max)
  {
    Consume(out);
    assert out[0] in out;
  }

  lemma CloseHandledKeeps(i: u32, out: seq<Message>, inc: seq<Message>, devs: DeviceEngine.Streams,
                          writerUp: bool, readerUp: bool, r: Rec, max: nat)
    requires RecInv(i, out, inc, devs, writerUp, readerUp, r, max)
    requires out != [] && out[0].command.Close?
    ensures RecInv(i, out[1..], inc, devs - {r.log.deviceId}, writerUp, readerUp, r, max)
  {
    Consume(out);
    assert out[0] in out;
    assert devs - {r.log.deviceId} == map[];
    assert !Live(r);
  }

  /** The caller has taken the payload: the device may send the next one. */
  lemma OkayHandledKeeps(i: u32, out: seq<Message>, inc: seq<Message>, devs: DeviceEngine.Streams,
                         writerUp: bool, readerUp: bool, r: Rec, max: nat)
    requires RecInv(i, out, inc, devs, writerUp, readerUp, r, max)
    requires out != [] && out[0].command.Okay? && r.log.deviceId in devs
    ensures RecInv(i, out[1..], inc, devs[r.log.deviceId := devs[r.log.deviceId].(inFlight := false)],
                   writerUp, readerUp, r, max)
  {
    Consume(out);
    assert out[0] in out;
  }

  lemma OkayPumpKeeps(i: u32, out: seq<Message>, inc: seq<Message>, devs: DeviceEngine.Streams,
                      writerUp: bool, readerUp: bool, r: Rec, r': Rec, finished: bool, max: nat)
    requires RecInv(i, out, inc, devs, writerUp, readerUp, r, max)
    requires out != [] && out[0].command.Okay? && r.log.deviceId in devs
    requires var idle := devs[r.log.deviceId := devs[r.log.deviceId].(inFlight := false)];
             var h := DeviceEngine.Pump(idle, r.log.deviceId, finished);
             r' == r.(log := r.log.(emitted := r.log.emitted + Writes(h.replies)))
    ensures var idle := devs[r.log.deviceId := devs[r.log.deviceId].(inFlight := false)];
            var h := DeviceEngine.Pump(idle, r.log.deviceId, finished);
            RecInv(i, out[1..], inc + h.replies, h.streams, writerUp, readerUp, r', max)
  {
    OkayHandledKeeps(i, out, inc, devs, writerUp, readerUp, r, max);
    var idle := devs[r.log.deviceId := devs[r.log.deviceId].(inFlight := false)];
    PumpKeeps(i, out[1..], inc, idle, writerUp, readerUp, r, r', finished, max);
  }

  lemma OpenHandledKeeps(i: u32, out: seq<Message>, inc: seq<Message>, devs: DeviceEngine.Streams,
                         writerUp: bool, readerUp: bool, r: Rec, newId: u32, choice: DeviceEngine.Choice, cfg: Config)
    requires Sane(cfg) && RecInv(i, out, inc, devs, writerUp, readerUp, r, cfg.maxPayload)
    requires out != [] && out[0].command.Open? && out[0].arg0 == i && newId != 0
    ensures var h := DeviceEngine.Handle(devs, out[0], newId, choice, cfg.deviceMax);
            var log := LogDevice(r.log, out[0].arg1 in devs, out[0], newId, choice, h.replies, cfg.deviceMax);
            RecInv(i, out[1..], inc + h.replies, h.streams, writerUp, readerUp, r.(log := log), cfg.maxPayload)
  {
    var max := cfg.maxPayload;
    var h := DeviceEngine.Handle(devs, out[0], newId, choice, cfg.deviceMax);
    var r' := r.(log := LogDevice(r.log, out[0].arg1 in devs, out[0], newId, choice, h.replies, cfg.deviceMax));
    if choice.accept {
      var chunks := DeviceEngine.Chunked(choice.replies, cfg.deviceMax);
      var added := devs[newId := DeviceEngine.DevStream(i, chunks, false)];
      var r1 := r.(log := r.log.(deviceId := newId, produced := r.log.produced + chunks));
      AcceptKeeps(i, out, inc, devs, writerUp, readerUp, r, r1, newId, chunks, max);
      var pumped := DeviceEngine.Pump(added, newId, choice.finished);
      assert Writes(h.replies) == Writes(pumped.replies) by {
        assert h.replies[1..] == pumped.replies;
      }
      PumpKeeps(i, out[1..], inc + [Empty(Okay, newId, i)], added, writerUp, readerUp, r1, r', choice.finished, max);
      PostsJoin(inc, [Empty(Okay, newId, i)], pumped.replies);
    } else {
      assert Writes([Empty(Close, 0, i)]) == Writes([]);
      assert r' == r;
      RefuseKeeps(i, out, inc, devs, writerUp, readerUp, r, max);
    }
  }

  lemma WriteHandledKeeps(i: u32, out: seq<Message>, inc: seq<Message>, devs: DeviceEngine.Streams,
                          writerUp: bool, readerUp: bool, r: Rec, newId: u32, choice: DeviceEngine.Choice, cfg: Config)
    requires Sane(cfg) && RecInv(i, out, inc, devs, writerUp, readerUp, r, cfg.maxPayload)
    requires out != [] && out[0].command.Write? && out[0].arg0 == i && out[0].arg1 == r.log.deviceId
    requires r.log.deviceId in devs
    ensures var h := DeviceEngine.Handle(devs, out[0], newId, choice, cfg.deviceMax);
            var log := LogDevice(r.log, out[0].arg1 in devs, out[0], newId, choice, h.replies, cfg.deviceMax);
            RecInv(i, out[1..], inc + h.replies, h.streams, writerUp, readerUp, r.(log := log), cfg.maxPayload)
  {
    var id, max := r.log.deviceId, cfg.maxPayload;
    var h := DeviceEngine.Handle(devs, out[0], newId, choice, cfg.deviceMax);
    var r' := r.(log := LogDevice(r.log, true, out[0], newId, choice, h.replies, cfg.deviceMax));
    var chunks := DeviceEngine.Chunked(choice.replies, cfg.deviceMax);
    var queued := devs[id := devs[id].(queue := devs[id].queue + chunks)];
    var r1 := r.(log := r.log.(accepted := r.log.accepted + out[0].payload, produced := r.log.produced + chunks));
    TakeKeeps(i, out, inc, devs, writerUp, readerUp, r, r1, chunks, max);
    var pumped := DeviceEngine.Pump(queued, id, choice.finished);
    assert Writes(h.replies) == Writes(pumped.replies) by {
      assert h.replies[1..] == pumped.replies;
    }
    PumpKeeps(i, out[1..], inc + [Empty(Okay, id, i)], queued, writerUp, readerUp, r1, r', choice.finished, max);
    PostsJoin(inc, [Empty(Okay, id, i)], pumped.replies);
  }

  /** The engine's turn on a CLSE. */
  lemma CloseTurnKeeps(i: u32, out: seq<Message>, inc: seq<Message>, devs: DeviceEngine.Streams,
                       writerUp: bool, readerUp: bool, r: Rec, newId: u32, choice: DeviceEngine.Choice, cfg: Config)
    requires Sane(cfg) && RecInv(i, out, inc, devs, writerUp, readerUp, r, cfg.maxPayload)
    requires out != [] && out[0].command.Close?
    ensures var h := DeviceEngine.Handle(devs, out[0], newId, choice, cfg.deviceMax);
            var log := LogDevice(r.log, out[0].arg1 in devs, out[0], newId, choice, h.replies, cfg.deviceMax);
            RecInv(i, out[1..], inc + h.replies, h.streams, writerUp, readerUp, r.(log := log), cfg.maxPayload)
  {
    assert out[0] in out;
    assert OutgoingOk(i, r.log.deviceId, out[0]);
    assert inc + [] == inc && Writes([]) == [];
    CloseHandledKeeps(i, out, inc, devs, writerUp, readerUp, r, cfg.maxPayload);
  }

  /** Its turn on a message for a stream it does not have. */
  lemma DropTurnKeeps(i: u32, out: seq<Message>, inc: seq<Message>, devs: DeviceEngine.Streams,
                      writerUp: bool, readerUp: bool, r: Rec, newId: u32, choice: DeviceEngine.Choice, cfg: Config)
    requires Sane(cfg) && RecInv(i, out, inc, devs, writerUp, readerUp, r, cfg.maxPayload)
    requires out != [] && !out[0].command.Open? && !out[0].command.Close? && out[0].arg1 !in devs
    ensures var h := DeviceEngine.Handle(devs, out[0], newId, choice, cfg.deviceMax);
            var log := LogDevice(r.log, out[0].arg1 in devs, out[0], newId, choice, h.replies, cfg.deviceMax);
            RecInv(i, out[1..], inc + h.replies, h.streams, writerUp, readerUp, r.(log := log), cfg.maxPayload)
  {
    assert out[0] in out;
    assert OutgoingOk(i, r.log.deviceId, out[0]);
    assert inc + [] == inc && Writes([]) == [];
    DropKeeps(i, out, inc, devs, writerUp, readerUp, r, cfg.maxPayload);
  }

  lemma HandleKeeps(i: u32, out: seq<Message>, inc: seq<Message>, devs: DeviceEngine.Streams,
                    writerUp: bool, readerUp: bool, r: Rec, newId: u32, choice: DeviceEngine.Choice, cfg: Config)
    requires Sane(cfg) && RecInv(i, out, inc, devs, writerUp, readerUp, r, cfg.maxPayload)
    requires out != [] && newId != 0
    ensures var h := DeviceEngine.Handle(devs, out[0], newId, choice, cfg.deviceMax);
            var log := LogDevice(r.log, out[0].arg1 in devs, out[0], newId, choice, h.replies, cfg.deviceMax);
            RecInv(i, out[1..], inc + h.replies, h.streams, writerUp, readerUp, r.(log := log), cfg.maxPayload)
  {
    var m := out[0];
    assert m in out;
    assert OutgoingOk(i, r.log.deviceId, m);
    if m.command.Open? {
      OpenHandledKeeps(i, out, inc, devs, writerUp, readerUp, r, newId, choice, cfg);
    } else if m.command.Close? {
      CloseTurnKeeps(i, out, inc, devs, writerUp, readerUp, r, newId, choice, cfg);
    } else if m.arg1 !in devs {
      DropTurnKeeps(i, out, inc, devs, writerUp, readerUp, r, newId, choice, cfg);
    } else if m.command.Write? {
      WriteHandledKeeps(i, out, inc, devs, writerUp, readerUp, r, newId, choice, cfg);
    } else {
      OkayTurnKeeps(i, out, inc, devs, writerUp, readerUp, r, newId, choice, cfg);
    }
  }

  lemma OkayTurnKeeps(i: u32, out: seq<Message>, inc: seq<Message>, devs: DeviceEngine.Streams,
                      writerUp: bool, readerUp: bool, r: Rec, newId: u32, choice: DeviceEngine.Choice, cfg: Config)
    requires Sane(cfg) && RecInv(i, out, inc, devs, writerUp, readerUp, r, cfg.maxPayload)
    requires out != [] && out[0].command.Okay? && out[0].arg1 in devs
    ensures var h := DeviceEngine.Handle(devs, out[0], newId, choice, cfg.deviceMax);
            var log := LogDevice(r.log, true, out[0], newId, choice, h.replies, cfg.deviceMax);
            RecInv(i, out[1..], inc + h.replies, h.streams, writerUp, readerUp, r.(log := log), cfg.maxPayload)
  {
    var m := out[0];
    var h := DeviceEngine.Handle(devs, m, newId, choice, cfg.deviceMax);
    var r' := r.(log := LogDevice(r.log, true, m, newId, choice, h.replies, cfg.deviceMax));
    assert m in out;
    assert OutgoingOk(i, r.log.deviceId, m);
    OkayPumpKeeps(i, out, inc, devs, writerUp, readerUp, r, r', choice.finished, cfg.maxPayload);
  }

  lemma DeviceKeeps(i: u32, l: Local, newId: u32, choice: DeviceEngine.Choice, cfg: Config)
    requires Sane(cfg) && Inv(i, l, cfg) && Enabled(i, l, DeviceHandles(newId, choice))
    ensures Inv(i, Next(i, l, DeviceHandles(newId, choice), cfg), cfg)
  {
    var l' := Next(i, l, DeviceHandles(newId, choice), cfg);
    HandleKeeps(i, ToDevice(l), l.toHost, l.devs, l.writerUp, l.readerUp, l.rec.value, newId, choice, cfg);
    FirstOnWire(l);
    assert l'.toDevice == l.toDevice[1..] && l'.outbox == l.outbox;
  }

  lemma FirstOnWire(l: Local)
    requires l.toDevice != []
    ensures ToDevice(l) != [] && ToDevice(l)[0] == l.toDevice[0]
    ensures ToDevice(l)[1..] == l.toDevice[1..] + l.outbox
  {
  }

  /** The reader's own CLSE joins the way to the device. */
  lemma ReplyKeeps(i: u32, out: seq<Message>, inc: seq<Message>, devs: DeviceEngine.Streams,
                   writerUp: bool, readerUp: bool, r: Rec, max: nat)
    requires RecInv(i, out, inc, devs, writerUp, readerUp, r, max) && !Live(r) && r.log.deviceId != 0
    ensures RecInv(i, out + [Empty(Close, i, r.log.deviceId)], inc, devs, writerUp, readerUp, r, max)
  {
    AppendOne(out, Empty(Close, i, r.log.deviceId));
  }

  lemma AckKeeps(i: u32, out: seq<Message>, inc: seq<Message>, devs: DeviceEngine.Streams,
                 writerUp: bool, readerUp: bool, r: Rec, max: nat)
    requires RecInv(i, out, inc, devs, writerUp, readerUp, r, max)
    requires inc != [] && inc[0].command.Okay? && r.registered
    ensures RecInv(i, out, inc[1..], devs, writerUp, readerUp, r.(view := AckView(r.view, inc[0].arg0)), max)
  {
    var r' := r.(view := AckView(r.view, inc[0].arg0));
    Consume(inc);
    assert inc[0] in inc;
    assert Shape(i, r.log.deviceId, out, inc[1..], devs);
    assert OwnerOk(r');
    assert Flow(out, inc[1..], devs, writerUp && readerUp, r');
    assert Uplink(out, inc[1..], devs, writerUp, r');
    assert Downlink(out, inc[1..], devs, writerUp, r');
    if r.view.remote == 0 {
      var t := r.log.posts;
      assert |t| > 1 ==> TraceEnd(t) || TraceStep(i, 0, max, t[|t| - 1]);
    }
  }

  lemma DeliverKeeps(i: u32, out: seq<Message>, inc: seq<Message>, devs: DeviceEngine.Streams,
                     writerUp: bool, readerUp: bool, r: Rec, r': Rec, max: nat)
    requires RecInv(i, out, inc, devs, writerUp, readerUp, r, max)
    requires inc != [] && inc[0].command.Write? && r.registered && Listening(r.view)
    requires r' == r.(view := DeliverView(r.view, inc[0].payload),
                      log := r.log.(delivered := r.log.delivered + [inc[0].payload]))
    ensures RecInv(i, out, inc[1..], devs, writerUp, readerUp, r', max)
  {
    Consume(inc);
    assert inc[0] in inc;
    assert r.log.delivered + Writes(inc) == r'.log.delivered + Writes(inc[1..]);
    assert Shape(i, r.log.deviceId, out, inc[1..], devs);
    assert Flow(out, inc[1..], devs, writerUp && readerUp, r');
    assert Pressure(out, inc[1..], devs, r');
    assert Downlink(out, inc[1..], devs, writerUp, r');
  }

  /** Nobody listens: the message is dropped. */
  lemma IgnoredKeeps(i: u32, out: seq<Message>, inc: seq<Message>, devs: DeviceEngine.Streams,
                     writerUp: bool, readerUp: bool, r: Rec, max: nat)
    requires RecInv(i, out, inc, devs, writerUp, readerUp, r, max) && inc != [] && !Live(r)
    ensures RecInv(i, out, inc[1..], devs, writerUp, readerUp, r, max)
  {
    Consume(inc);
    assert Shape(i, r.log.deviceId, out, inc[1..], devs);
    assert Flow(out, inc[1..], devs, writerUp && readerUp, r);
    assert Downlink(out, inc[1..], devs, writerUp, r);
  }

  lemma ClosedKeeps(i: u32, out: seq<Message>, inc: seq<Message>, devs: DeviceEngine.Streams,
                    writerUp: bool, readerUp: bool, r: Rec, r': Rec, max: nat)
    requires RecInv(i, out, inc, devs, writerUp, readerUp, r, max)
    requires inc != [] && inc[0].command.Close? && r.registered
    requires r' == r.(view := CloseView(r.view), registered := false, log := r.log.(ended := true))
    ensures RecInv(i, out, inc[1..], devs, writerUp, readerUp, r', max)
  {
    Consume(inc);
    assert |inc| == 1;
    assert inc[1..] == [];
    assert Shape(i, r.log.deviceId, out, [], devs);
    assert Flow(out, [], devs, writerUp && readerUp, r');
    assert Downlink(out, [], devs, writerUp, r');
  }

  /** `close_all` reaches the stream. */
  lemma StopReaderKeeps(i: u32, out: seq<Message>, inc: seq<Message>, devs: DeviceEngine.Streams,
                        writerUp: bool, readerUp: bool, r: Rec, max: nat)
    requires RecInv(i, out, inc, devs, writerUp, readerUp, r, max)
    ensures RecInv(i, out, inc, devs, writerUp, false, StopReader(r), max)
  {
  }

  /** A payload nobody listens for is answered with CLSE, or stops the reader. */
  lemma UnheardKeeps(i: u32, out: seq<Message>, inc: seq<Message>, devs: DeviceEngine.Streams,
                     writerUp: bool, readerUp: bool, r: Rec, max: nat)
    requires RecInv(i, out, inc, devs, writerUp, readerUp, r, max) && inc != []
    requires inc[0].command.Write? && !Live(r) && !(r.registered && Listening(r.view))
    ensures var s := ReaderStep(Some(r), inc[0], writerUp);
            s.0.Some? && RecInv(i, out + s.1, inc[1..], devs, writerUp, readerUp && !s.2, s.0.value, max)
  {
    assert inc[0] in inc;
    IgnoredKeeps(i, out, inc, devs, writerUp, readerUp, r, max);
    if writerUp {
      ReplyKeeps(i, out, inc[1..], devs, writerUp, readerUp, r, max);
    } else {
      StopReaderKeeps(i, out, inc[1..], devs, writerUp, readerUp, r, max);
      assert out + [] == out;
    }
  }

  lemma ControlKeeps(i: u32, out: seq<Message>, inc: seq<Message>, devs: DeviceEngine.Streams,
                     writerUp: bool, readerUp: bool, r: Rec, r': Rec, max: nat)
    requires RecInv(i, out, inc, devs, writerUp, readerUp, r, max) && inc != []
    requires inc[0].command.Okay? || inc[0].command.Close?
    requires ReaderStep(Some(r), inc[0], writerUp) == (Some(r'), [], false)
    ensures RecInv(i, out, inc[1..], devs, writerUp, readerUp, r', max)
  {
    if !r.registered {
      IgnoredKeeps(i, out, inc, devs, writerUp, readerUp, r, max);
    } else if inc[0].command.Okay? {
      AckKeeps(i, out, inc, devs, writerUp, readerUp, r, max);
    } else {
      ClosedKeeps(i, out, inc, devs, writerUp, readerUp, r, r', max);
    }
  }

  /** One message through `dispatch`. */
  lemma DispatchKeeps(i: u32, out: seq<Message>, inc: seq<Message>, devs: DeviceEngine.Streams,
                      writerUp: bool, readerUp: bool, r: Rec, max: nat)
    requires RecInv(i, out, inc, devs, writerUp, readerUp, r, max) && inc != []
    ensures var s := ReaderStep(Some(r), inc[0], writerUp);
            s.0.Some? && RecInv(i, out + s.1, inc[1..], devs, writerUp, readerUp && !s.2, s.0.value, max)
  {
    var m, s := inc[0], ReaderStep(Some(r), inc[0], writerUp);
    assert m in inc;
    assert IncomingOk(i, r.log.deviceId, m);
    assert out + [] == out;
    if !m.command.Write? {
      ControlKeeps(i, out, inc, devs, writerUp, readerUp, r, s.0.value, max);
    } else if r.registered && Listening(r.view) {
      DeliverKeeps(i, out, inc, devs, writerUp, readerUp, r, s.0.value, max);
    } else {
      UnheardKeeps(i, out, inc, devs, writerUp, readerUp, r, max);
    }
  }

  lemma ReaderKeeps(i: u32, l: Local, cfg: Config)
    requires Sane(cfg) && Inv(i, l, cfg) && Enabled(i, l, ReaderDispatches)
    ensures Inv(i, Next(i, l, ReaderDispatches, cfg), cfg)
  {
    DispatchKeeps(i, ToDevice(l), l.toHost, l.devs, l.writerUp, l.readerUp, l.rec.value, cfg.maxPayload);
    PostsJoin(l.toDevice, l.outbox, ReaderStep(l.rec, l.toHost[0], l.writerUp).1);
  }

  /** Every step of a stream keeps its invariant. */
  lemma NextKeeps(i: u32, l: Local, e: Event, cfg: Config)
    requires Sane(cfg) && Inv(i, l, cfg) && Enabled(i, l, e)
    ensures Inv(i, Next(i, l, e, cfg), cfg)
  {
    match e {
      case OpenCall(_, service) => OpenKeeps(i, l, service, cfg);
      case OwnerCall(_, call) => OwnerKeeps(i, l, call, cfg);
      case WriterMoves => WriterKeeps(i, l, cfg);
      case DeviceHandles(newId, choice) => DeviceKeeps(i, l, newId, choice, cfg);
      case ReaderDispatches => ReaderKeeps(i, l, cfg);
      case WriterStops => WriterStopsKeeps(i, l, cfg);
      case ReaderStops => ReaderStopsKeeps(i, l, cfg);
    }
  }
}
