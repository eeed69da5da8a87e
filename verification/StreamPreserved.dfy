/** Every step of one stream keeps the invariant. */
module StreamPreserved {
  import opened Bytes
  import opened Wire
  import opened StreamModel
  import opened StreamMachine
  import opened StreamInvariant
  import DeviceEngine

  /** All that the invariant reads of a queue, when one message joins it. */
  lemma AppendOne(a: seq<Message>, m: Message)
    ensures Count(a + [m], Open) == Count(a, Open) + if m.command.Open? then 1 else 0
    ensures Count(a + [m], Write) == Count(a, Write) + if m.command.Write? then 1 else 0
    ensures Count(a + [m], Okay) == Count(a, Okay) + if m.command.Okay? then 1 else 0
    ensures Count(a + [m], Close) == Count(a, Close) + if m.command.Close? then 1 else 0
    ensures Writes(a + [m]) == Writes(a) + if m.command.Write? then [m.payload] else []
    ensures Flatten(Writes(a + [m])) == Flatten(Writes(a)) + if m.command.Write? then m.payload else []
  {
    CountOne(a, m, Open);
    CountOne(a, m, Write);
    CountOne(a, m, Okay);
    CountOne(a, m, Close);
    WritesOne(a, m);
    FlattenAppend(Writes(a), Writes([m]));
  }

  lemma CountOne(a: seq<Message>, m: Message, c: Command)
    ensures Count(a + [m], c) == Count(a, c) + if m.command == c then 1 else 0
  {
    CountAppend(a, [m], c);
    assert Count([m], c) == (if m.command == c then 1 else 0) + Count([], c);
  }

  lemma WritesOne(a: seq<Message>, m: Message)
    ensures Writes([m]) == if m.command.Write? then [m.payload] else []
    ensures Writes(a + [m]) == Writes(a) + Writes([m])
    ensures Flatten(Writes([m])) == if m.command.Write? then m.payload else []
  {
    WritesAppend(a, [m]);
    assert Writes([m]) == (if m.command.Write? then [m.payload] else []) + Writes([]);
    if m.command.Write? {
      assert Flatten([m.payload]) == m.payload + Flatten([]);
    }
  }

  lemma WriterKeeps(i: u32, l: Local, cfg: Config)
    requires Sane(cfg) && Inv(i, l, cfg) && Enabled(i, l, WriterMoves)
    ensures Inv(i, Next(i, l, WriterMoves, cfg), cfg)
  {
    assert ToDevice(Next(i, l, WriterMoves, cfg)) == ToDevice(l);
  }

  /** Messages that never reach the wire only make every count smaller. */
  lemma WriterStopsKeeps(i: u32, l: Local, cfg: Config)
    requires Sane(cfg) && Inv(i, l, cfg)
    ensures Inv(i, Next(i, l, WriterStops, cfg), cfg)
  {
    var l' := Next(i, l, WriterStops, cfg);
    assert ToDevice(l') == l.toDevice;
    CountAppend(l.toDevice, l.outbox, Open);
    CountAppend(l.toDevice, l.outbox, Write);
    CountAppend(l.toDevice, l.outbox, Okay);
    CountAppend(l.toDevice, l.outbox, Close);
    WritesAppend(l.toDevice, l.outbox);
    FlattenAppend(Writes(l.toDevice), Writes(l.outbox));
    CountWrites(l.outbox);
    assert l'.rec == l.rec;
  }

  lemma ReaderStopsKeeps(i: u32, l: Local, cfg: Config)
    requires Sane(cfg) && Inv(i, l, cfg)
    ensures Inv(i, Next(i, l, ReaderStops, cfg), cfg)
  {
    var l' := Next(i, l, ReaderStops, cfg);
    assert ToDevice(l') == ToDevice(l);
  }

  lemma OpenKeeps(i: u32, l: Local, service: Data, cfg: Config)
    requires Sane(cfg) && Inv(i, l, cfg) && Enabled(i, l, OpenCall(i, service))
    ensures Inv(i, Next(i, l, OpenCall(i, service), cfg), cfg)
  {
    var l' := Next(i, l, OpenCall(i, service), cfg);
    var posts := OpenStream(i, service, l.writerUp).1;
    assert l'.toDevice == [] && [] + l'.outbox == l'.outbox && [] + posts == posts;
    assert ToDevice(l') == posts;
    OpenRecKeeps(i, service, l.writerUp, l.readerUp, cfg.maxPayload);
  }

  /** The record and the outbox of a stream just asked for. */
  lemma OpenRecKeeps(i: u32, service: Data, writerUp: bool, readerUp: bool, max: nat)
    requires 0 !in service
    ensures var (r, posts) := OpenStream(i, service, writerUp);
            RecInv(i, posts, [], map[], writerUp, readerUp, r, max)
  {
    if writerUp {
      var m := Message(Open, i, 0, service + [0]);
      AppendOne([], m);
      assert [] + [m] == [m];
      assert m.payload[..|m.payload| - 1] == service;
    }
  }

  /** A WRTE or OKAY joins the trace of an open stream. */
  lemma TraceGrows(i: u32, t: seq<Message>, posted: Data, remote: u32, m: Message, max: nat)
    requires Trace(i, t, posted, remote, false, false, max) && TraceStep(i, remote, max, m)
    ensures Trace(i, t + [m], posted + if m.command.Write? then m.payload else [], remote, false, false, max)
  {
    AppendOne(t, m);
    var t' := t + [m];
    assert !TraceEnd(t) && !TraceEnd(t');
    forall k | 0 < k < |t'| ensures TraceStep(i, remote, max, t'[k]) {
      if k < |t| {
        assert t'[k] == t[k];
      }
    }
  }

  /** A CLSE ends it. */
  lemma TraceEnds(i: u32, t: seq<Message>, posted: Data, remote: u32, gone: bool, max: nat)
    requires Trace(i, t, posted, remote, false, false, max) && remote != 0
    ensures Trace(i, t + [Empty(Close, i, remote)], posted, remote, true, gone, max)
  {
    var m := Empty(Close, i, remote);
    AppendOne(t, m);
    var t' := t + [m];
    assert !TraceEnd(t) && TraceEnd(t');
    forall k | 0 < k < |t'| && k != |t'| - 1 ensures TraceStep(i, remote, max, t'[k]) {
      assert t'[k] == t[k];
    }
  }

  /** Only the result of the last call and the total offered by the owner change. */
  lemma IdleKeeps(i: u32, out: seq<Message>, inc: seq<Message>, devs: DeviceEngine.Streams,
                  writerUp: bool, readerUp: bool, r: Rec, r': Rec, max: nat)
    requires RecInv(i, out, inc, devs, writerUp, readerUp, r, max) && r.owner.Idle?
    requires r' == r.(outcome := r'.outcome, log := r.log.(offered := r'.log.offered))
    requires r'.log.posted <= r'.log.offered
    requires !r.view.closed && writerUp ==> r'.log.posted == r'.log.offered
    ensures RecInv(i, out, inc, devs, writerUp, readerUp, r', max)
  {
  }

  /** A chunk is posted and the owner parks. */
  lemma PostChunkKeeps(i: u32, out: seq<Message>, inc: seq<Message>, devs: DeviceEngine.Streams,
                       readerUp: bool, r: Rec, chunk: Data, rest: Data, r': Rec, max: nat)
    requires RecInv(i, out, inc, devs, true, readerUp, r, max) && r.owner.Idle? && Usable(r.view)
    requires 0 < |chunk| <= max
    requires var m := Message(Write, i, r.view.remote, chunk);
             r' == r.(owner := Writing(r.view.acks, rest), view := Park(r.view), outcome := r'.outcome,
                      log := r.log.(posts := r.log.posts + [m], posted := r.log.posted + chunk,
                                    offered := r.log.posted + chunk + rest))
    ensures RecInv(i, out + [Message(Write, i, r.view.remote, chunk)], inc, devs, true, readerUp, r', max)
  {
    var m := Message(Write, i, r.view.remote, chunk);
    AppendOne(out, m);
    TraceGrows(i, r.log.posts, r.log.posted, r.view.remote, m, max);
    assert Shape(i, r'.log.deviceId, out + [m], inc, devs);
    assert Flow(out + [m], inc, devs, readerUp, r');
    assert Pressure(out + [m], inc, devs, r');
    assert Uplink(out + [m], inc, devs, true, r') by {
      CountWrites(out);
      assert Writes(out) == [];
    }
    assert Downlink(out + [m], inc, devs, true, r');
  }

  /** The loop of `send` up to its next await. `base` is the stream with everything posted so far
      acknowledged, or closed; the owner itself may still be waiting for the chunk before. */
  lemma SendRestKeeps(i: u32, out: seq<Message>, inc: seq<Message>, devs: DeviceEngine.Streams,
                      writerUp: bool, readerUp: bool, base: Rec, r: Rec, rest: Data, max: nat)
    requires max > 0
    requires RecInv(i, out, inc, devs, writerUp, readerUp, base, max)
    requires base == r.(owner := Idle, log := r.log.(offered := r.log.posted))
    requires r.log.posted <= r.log.offered
    requires !r.view.closed && writerUp ==> r.log.posted + rest == r.log.offered
    ensures var s := SendRest(i, r, rest, writerUp, max);
            RecInv(i, out + s.1, inc, devs, writerUp, readerUp, s.0, max)
  {
    var s := SendRest(i, r, rest, writerUp, max);
    if rest == [] || !Usable(r.view) || !writerUp {
      assert out + [] == out;
      IdleKeeps(i, out, inc, devs, writerUp, readerUp, base, s.0, max);
    } else {
      var take := Min(|rest|, max);
      assert rest == rest[..take] + rest[take..];
      assert r.log.posted + rest == r.log.posted + rest[..take] + rest[take..];
      PostChunkKeeps(i, out, inc, devs, readerUp, base, rest[..take], rest[take..], s.0, max);
    }
  }

  /** A wake-up that finds the acknowledgement. */
  lemma AckedKeeps(i: u32, out: seq<Message>, inc: seq<Message>, devs: DeviceEngine.Streams,
                   writerUp: bool, readerUp: bool, r: Rec, base: Rec, max: nat)
    requires RecInv(i, out, inc, devs, writerUp, readerUp, r, max) && Blocked(r) && r.view.acks > Seen(r)
    requires base == r.(view := Park(r.view), owner := Idle, outcome := base.outcome,
                        log := r.log.(offered := r.log.posted, acked := base.log.acked))
    ensures RecInv(i, out, inc, devs, writerUp, readerUp, base, max)
  {
  }

  /** A wake-up that finds the stream closed instead. */
  lemma UnackedKeeps(i: u32, out: seq<Message>, inc: seq<Message>, devs: DeviceEngine.Streams,
                     writerUp: bool, readerUp: bool, r: Rec, max: nat)
    requires max > 0 && RecInv(i, out, inc, devs, writerUp, readerUp, r, max) && Blocked(r)
    requires r.view.closed && r.view.acks <= Seen(r)
    ensures RecInv(i, out, inc, devs, writerUp, readerUp, Woken(i, r, writerUp, max).0, max)
  {
    var r' := Woken(i, r, writerUp, max).0;
    assert Uplink(out, inc, devs, writerUp, r');
    assert Downlink(out, inc, devs, writerUp, r');
  }

  /** A wake-up with nothing to find: the owner parks again. */
  lemma SpuriousKeeps(i: u32, out: seq<Message>, inc: seq<Message>, devs: DeviceEngine.Streams,
                      writerUp: bool, readerUp: bool, r: Rec, max: nat)
    requires RecInv(i, out, inc, devs, writerUp, readerUp, r, max) && Blocked(r)
    requires !r.view.closed && r.view.acks <= Seen(r)
    ensures RecInv(i, out, inc, devs, writerUp, readerUp, r.(view := Park(r.view)), max)
  {
  }

  lemma OpenedKeeps(i: u32, out: seq<Message>, inc: seq<Message>, devs: DeviceEngine.Streams,
                    writerUp: bool, readerUp: bool, r: Rec, max: nat)
    requires RecInv(i, out, inc, devs, writerUp, readerUp, r, max) && r.owner.Opening? && r.view.acks > 0
    ensures var s := Woken(i, r, writerUp, max);
            RecInv(i, out + s.1, inc, devs, writerUp, readerUp, s.0, max)
  {
    assert r.log.posted == r.log.offered;
    var usable := r.(view := Park(r.view), owner := Idle, outcome := Opened);
    assert Woken(i, r, writerUp, max) == (usable, []);
    assert out + [] == out;
    AckedKeeps(i, out, inc, devs, writerUp, readerUp, r, usable, max);
  }

  lemma WokenAckedKeeps(i: u32, out: seq<Message>, inc: seq<Message>, devs: DeviceEngine.Streams,
                        writerUp: bool, readerUp: bool, r: Rec, max: nat)
    requires max > 0 && RecInv(i, out, inc, devs, writerUp, readerUp, r, max) && Blocked(r)
    requires r.view.acks > Seen(r)
    ensures var s := Woken(i, r, writerUp, max);
            RecInv(i, out + s.1, inc, devs, writerUp, readerUp, s.0, max)
  {
    if r.owner.Writing? {
      assert r.log.posted + r.owner.rest == r.log.offered;
      var parked := r.(view := Park(r.view), log := r.log.(acked := r.log.acked + 1));
      var base := parked.(owner := Idle, log := parked.log.(offered := r.log.posted));
      AckedKeeps(i, out, inc, devs, writerUp, readerUp, r, base, max);
      SendRestKeeps(i, out, inc, devs, writerUp, readerUp, base, parked, r.owner.rest, max);
      assert Woken(i, r, writerUp, max) == SendRest(i, parked, r.owner.rest, writerUp, max);
    } else {
      OpenedKeeps(i, out, inc, devs, writerUp, readerUp, r, max);
    }
  }

  lemma WokenKeeps(i: u32, out: seq<Message>, inc: seq<Message>, devs: DeviceEngine.Streams,
                   writerUp: bool, readerUp: bool, r: Rec, max: nat)
    requires max > 0 && RecInv(i, out, inc, devs, writerUp, readerUp, r, max) && Blocked(r)
    ensures var s := Woken(i, r, writerUp, max);
            RecInv(i, out + s.1, inc, devs, writerUp, readerUp, s.0, max)
  {
    assert out + [] == out;
    if r.view.acks > Seen(r) {
      WokenAckedKeeps(i, out, inc, devs, writerUp, readerUp, r, max);
    } else if r.view.closed {
      UnackedKeeps(i, out, inc, devs, writerUp, readerUp, r, max);
    } else {
      SpuriousKeeps(i, out, inc, devs, writerUp, readerUp, r, max);
    }
  }

  lemma CloseNowKeeps(i: u32, out: seq<Message>, inc: seq<Message>, devs: DeviceEngine.Streams,
                      writerUp: bool, readerUp: bool, r: Rec, max: nat)
    requires RecInv(i, out, inc, devs, writerUp, readerUp, r, max) && r.owner.Idle?
    ensures var (r', posts) := CloseNow(i, r, writerUp);
            && RecInv(i, out + posts, inc, devs, writerUp, readerUp, r', max)
            && r'.owner.Idle? && r'.view.closed
  {
    var (r', posts) := CloseNow(i, r, writerUp);
    assert out + [] == out;
    if posts != [] {
      var m := posts[0];
      assert posts == [m];
      AppendOne(out, m);
      TraceEnds(i, r.log.posts, r.log.posted, r.view.remote, false, max);
      assert Flow(out + [m], inc, devs, writerUp && readerUp, r');
      assert Uplink(out + [m], inc, devs, writerUp, r');
      assert Downlink(out + [m], inc, devs, writerUp, r');
    }
  }

  lemma ReceiveKeeps(i: u32, out: seq<Message>, inc: seq<Message>, devs: DeviceEngine.Streams,
                     writerUp: bool, readerUp: bool, r: Rec, max: nat)
    requires RecInv(i, out, inc, devs, writerUp, readerUp, r, max) && r.owner.Idle?
    ensures var (r', posts) := Receive(i, r, writerUp);
            RecInv(i, out + posts, inc, devs, writerUp, readerUp, r', max)
  {
    var (r', posts) := Receive(i, r, writerUp);
    assert out + [] == out;
    if posts != [] {
      ReceivePostsKeeps(i, out, inc, devs, writerUp, readerUp, r, max);
    } else {
      ReceiveSilentKeeps(i, out, inc, devs, writerUp, readerUp, r, max);
    }
  }

  /** Nothing was posted: there was no payload, or it was lost with the writer. */
  lemma ReceiveSilentKeeps(i: u32, out: seq<Message>, inc: seq<Message>, devs: DeviceEngine.Streams,
                           writerUp: bool, readerUp: bool, r: Rec, max: nat)
    requires RecInv(i, out, inc, devs, writerUp, readerUp, r, max) && r.owner.Idle?
    requires Receive(i, r, writerUp).1 == []
    ensures RecInv(i, out, inc, devs, writerUp, readerUp, Receive(i, r, writerUp).0, max)
  {
    var r' := Receive(i, r, writerUp).0;
    if r.view.queue != [] {
      assert r.view.queue == [r.view.queue[0]] + r.view.queue[1..];
    }
    assert Flow(out, inc, devs, writerUp && readerUp, r');
    assert Pressure(out, inc, devs, r');
    assert Uplink(out, inc, devs, writerUp, r');
    assert Downlink(out, inc, devs, writerUp, r');
  }

  /** A payload was taken and its OKAY posted. */
  lemma ReceivePostsKeeps(i: u32, out: seq<Message>, inc: seq<Message>, devs: DeviceEngine.Streams,
                          writerUp: bool, readerUp: bool, r: Rec, max: nat)
    requires RecInv(i, out, inc, devs, writerUp, readerUp, r, max) && r.owner.Idle?
    requires Receive(i, r, writerUp).1 != []
    ensures var (r', posts) := Receive(i, r, writerUp);
            RecInv(i, out + posts, inc, devs, writerUp, readerUp, r', max)
  {
    var m := Empty(Okay, i, r.view.remote);
    assert Receive(i, r, writerUp).1 == [m];
    TraceGrows(i, r.log.posts, r.log.posted, r.view.remote, m, max);
    ReceivePostsFlow(i, out, inc, devs, writerUp, readerUp, r, max);
    ReceivePostsBytes(i, out, inc, devs, writerUp, readerUp, r, max);
  }

  lemma ReceivePostsFlow(i: u32, out: seq<Message>, inc: seq<Message>, devs: DeviceEngine.Streams,
                         writerUp: bool, readerUp: bool, r: Rec, max: nat)
    requires RecInv(i, out, inc, devs, writerUp, readerUp, r, max) && r.owner.Idle?
    requires Receive(i, r, writerUp).1 != []
    ensures var (r', posts) := Receive(i, r, writerUp);
            && OwnerOk(r') && Shape(i, r'.log.deviceId, out + posts, inc, devs)
            && Flow(out + posts, inc, devs, writerUp && readerUp, r') && Pressure(out + posts, inc, devs, r')
  {
    var m := Empty(Okay, i, r.view.remote);
    assert Receive(i, r, writerUp).1 == [m];
    AppendOne(out, m);
  }

  lemma ReceivePostsBytes(i: u32, out: seq<Message>, inc: seq<Message>, devs: DeviceEngine.Streams,
                          writerUp: bool, readerUp: bool, r: Rec, max: nat)
    requires RecInv(i, out, inc, devs, writerUp, readerUp, r, max) && r.owner.Idle?
    requires Receive(i, r, writerUp).1 != []
    ensures var (r', posts) := Receive(i, r, writerUp);
            Uplink(out + posts, inc, devs, writerUp, r') && Downlink(out + posts, inc, devs, writerUp, r')
  {
    var (r', posts) := Receive(i, r, writerUp);
    assert posts == [posts[0]];
    assert r.view.queue == [r.view.queue[0]] + r.view.queue[1..];
    assert r.log.taken + r.view.queue == r'.log.taken + r'.view.queue;
    AppendOne(out, posts[0]);
  }

  lemma SendKeeps(i: u32, out: seq<Message>, inc: seq<Message>, devs: DeviceEngine.Streams,
                  writerUp: bool, readerUp: bool, r: Rec, data: Data, max: nat)
    requires max > 0 && RecInv(i, out, inc, devs, writerUp, readerUp, r, max) && r.owner.Idle?
    ensures var s := OwnerStep(i, r, Send(data), writerUp, max);
            RecInv(i, out + s.1, inc, devs, writerUp, readerUp, s.0, max)
  {
    var base := r.(log := r.log.(offered := r.log.posted));
    IdleKeeps(i, out, inc, devs, writerUp, readerUp, r, base, max);
    var offered := r.(log := r.log.(offered := r.log.offered + data));
    SendRestKeeps(i, out, inc, devs, writerUp, readerUp, base, offered, data, max);
  }

  /** The owner lets go of a closed stream: unread payloads go with it. */
  lemma LetGoKeeps(i: u32, out: seq<Message>, inc: seq<Message>, devs: DeviceEngine.Streams,
                   writerUp: bool, readerUp: bool, r: Rec, r': Rec, max: nat)
    requires RecInv(i, out, inc, devs, writerUp, readerUp, r, max) && r.owner.Idle? && r.view.closed
    requires r' == r.(view := r.view.(receiver := false, queue := []), owner := Gone, outcome := r'.outcome)
    ensures RecInv(i, out, inc, devs, writerUp, readerUp, r', max)
  {
    assert Uplink(out, inc, devs, writerUp, r');
    assert Downlink(out, inc, devs, writerUp, r');
  }

  lemma CloseKeeps(i: u32, out: seq<Message>, inc: seq<Message>, devs: DeviceEngine.Streams,
                   writerUp: bool, readerUp: bool, r: Rec, call: Call, max: nat)
    requires RecInv(i, out, inc, devs, writerUp, readerUp, r, max) && r.owner.Idle?
    requires call.CloseStream? || call.DropStream?
    ensures var s := OwnerStep(i, r, call, writerUp, max);
            RecInv(i, out + s.1, inc, devs, writerUp, readerUp, s.0, max)
  {
    var s := OwnerStep(i, r, call, writerUp, max);
    CloseNowKeeps(i, out, inc, devs, writerUp, readerUp, r, max);
    var c := CloseNow(i, r, writerUp);
    if call.CloseStream? {
      IdleKeeps(i, out + c.1, inc, devs, writerUp, readerUp, c.0, s.0, max);
    } else {
      LetGoKeeps(i, out + c.1, inc, devs, writerUp, readerUp, c.0, s.0, max);
    }
  }

  lemma CallKeeps(i: u32, out: seq<Message>, inc: seq<Message>, devs: DeviceEngine.Streams,
                  writerUp: bool, readerUp: bool, r: Rec, call: Call, max: nat)
    requires max > 0 && RecInv(i, out, inc, devs, writerUp, readerUp, r, max) && CanCall(r, call)
    ensures var s := OwnerStep(i, r, call, writerUp, max);
            RecInv(i, out + s.1, inc, devs, writerUp, readerUp, s.0, max)
  {
    match call {
      case Send(data) => SendKeeps(i, out, inc, devs, writerUp, readerUp, r, data, max);
      case Recv => ReceiveKeeps(i, out, inc, devs, writerUp, readerUp, r, max);
      case CloseStream => CloseKeeps(i, out, inc, devs, writerUp, readerUp, r, call, max);
      case DropStream => CloseKeeps(i, out, inc, devs, writerUp, readerUp, r, call, max);
      case Wake => WokenKeeps(i, out, inc, devs, writerUp, readerUp, r, max);
    }
  }

  lemma OwnerKeeps(i: u32, l: Local, call: Call, cfg: Config)
    requires Sane(cfg) && Inv(i, l, cfg) && Enabled(i, l, OwnerCall(i, call))
    ensures Inv(i, Next(i, l, OwnerCall(i, call), cfg), cfg)
  {
    var posts := OwnerStep(i, l.rec.value, call, l.writerUp, cfg.maxPayload).1;
    CallKeeps(i, ToDevice(l), l.toHost, l.devs, l.writerUp, l.readerUp, l.rec.value, call, cfg.maxPayload);
    PostsJoin(l.toDevice, l.outbox, posts);
  }

  lemma PostsJoin(a: seq<Message>, b: seq<Message>, c: seq<Message>)
    ensures a + (b + c) == a + b + c
  {
  }
}
