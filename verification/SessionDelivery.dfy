/** Nothing is held back on the way to the caller: once the writer, the device and the reader have
    nothing left to do, either `recv` has the next chunk of the service at once, or the caller has been
    handed all of them. */
module SessionDelivery {
  import opened Bytes
  import opened Wire
  import opened StreamModel
  import opened StreamMachine
  import opened StreamInvariant
  import opened SessionSystem
  import opened SessionProjection
  import opened SessionInvariant
  import opened SessionProgress
  import DeviceEngine
  import FlowControl

  /** Chunks wait at the device only behind a WRTE in flight; and while that is in flight to an open
      stream, its payload or the OKAY for it is on its way or in the caller's queue. */
  predicate Delivering(l: Local) {
    match l.rec
    case None => true
    case Some(r) =>
      var id := r.log.deviceId;
      id in l.devs ==>
        if l.devs[id].inFlight then
          Live(r) && l.writerUp && l.readerUp ==> Unread(ToDevice(l), l.toHost, r) > 0
        else l.devs[id].queue == []
  }

  /** What an owner takes off its queue it acknowledges, as long as its stream is open. */
  lemma OwnerAcknowledges(id: u32, r: Rec, call: Call, max: nat)
    requires CanCall(r, call) && OwnerOk(r)
    ensures var (r', posts) := OwnerStep(id, r, call, true, max);
            && r'.log.deviceId == r.log.deviceId
            && (Live(r') ==> Live(r) && |r'.view.queue| + Count(posts, Okay) == |r.view.queue|)
  {
    FlowControl.Few(OwnerStep(id, r, call, true, max).1);
  }

  lemma OwnerDelivers(i: u32, l: Local, call: Call, cfg: Config)
    requires Sane(cfg) && Inv(i, l, cfg) && Enabled(i, l, OwnerCall(i, call)) && Delivering(l)
    ensures Delivering(Next(i, l, OwnerCall(i, call), cfg))
  {
    var r := l.rec.value;
    var (r', posts) := OwnerStep(i, r, call, l.writerUp, cfg.maxPayload);
    if l.writerUp {
      OwnerAcknowledges(i, r, call, cfg.maxPayload);
      FlowControl.PostsJoin(l, posts);
      CountAppend(ToDevice(l), posts, Okay);
    } else {
      DeviceIdKept(i, r, call, cfg.maxPayload);
    }
  }

  lemma DeviceIdKept(id: u32, r: Rec, call: Call, max: nat)
    requires CanCall(r, call)
    ensures OwnerStep(id, r, call, false, max).0.log.deviceId == r.log.deviceId
  {
  }

  /** A payload for an open stream is queued. */
  lemma ReaderQueues(r: Rec, msg: Message, writerUp: bool)
    requires OwnerOk(r)
    ensures var (rec', posts, stops) := ReaderStep(Some(r), msg, writerUp);
            && rec'.Some? && rec'.value.log.deviceId == r.log.deviceId && Count(posts, Okay) == 0
            && (Live(rec'.value) && !stops ==>
                  Live(r) && |rec'.value.view.queue| == |r.view.queue| + if msg.command.Write? then 1 else 0)
  {
    FlowControl.Few(ReaderStep(Some(r), msg, writerUp).1);
  }

  lemma ReaderDelivers(i: u32, l: Local, cfg: Config)
    requires Sane(cfg) && Inv(i, l, cfg) && Enabled(i, l, ReaderDispatches) && Delivering(l)
    ensures Delivering(Next(i, l, ReaderDispatches, cfg))
  {
    if l.rec.Some? {
      var posts := ReaderStep(l.rec, l.toHost[0], l.writerUp).1;
      ReaderQueues(l.rec.value, l.toHost[0], l.writerUp);
      FlowControl.Beheaded(l.toHost);
      FlowControl.PostsJoin(l, posts);
      CountAppend(ToDevice(l), posts, Okay);
    }
  }

  /** At the end of a turn nothing waits but behind a WRTE in flight, which has just been sent if it was
      not in flight before. */
  lemma PumpDelivers(streams: DeviceEngine.Streams, id: u32, at: DeviceEngine.DevStream, finished: bool,
                     after: DeviceEngine.Streams, sent: seq<Message>)
    requires DeviceEngine.Pumped(streams, id, at, finished, after, sent)
    ensures id in after ==> if after[id].inFlight then at.inFlight || Count(sent, Write) == 1 else after[id].queue == []
  {
    FlowControl.Few(sent);
    if sent != [] {
      FlowControl.One(sent[0], Write);
      assert sent == [sent[0]];
    }
  }

  /** What the device takes is what is first on its way to it. */
  lemma HeadTaken(l: Local, l': Local, cfg: Config, i: u32)
    requires Inv(i, l, cfg) && l.toDevice != [] && l'.toDevice == l.toDevice[1..] && l'.outbox == l.outbox
    ensures var msg := l.toDevice[0];
            && Count(ToDevice(l), Okay) == Count(ToDevice(l'), Okay) + (if msg.command.Okay? then 1 else 0)
            && Count(ToDevice(l), Open) == Count(ToDevice(l'), Open) + (if msg.command.Open? then 1 else 0)
            && l.rec.Some? && OutgoingOk(i, l.rec.value.log.deviceId, msg)
  {
    assert ToDevice(l)[0] == l.toDevice[0] && ToDevice(l)[1..] == ToDevice(l');
    assert l.toDevice[0] in ToDevice(l);
    FlowControl.Beheaded(ToDevice(l));
  }

  lemma DeviceDelivers(i: u32, l: Local, newId: u32, choice: DeviceEngine.Choice, cfg: Config)
    requires Sane(cfg) && Inv(i, l, cfg) && Enabled(i, l, DeviceHandles(newId, choice)) && Delivering(l)
    ensures Delivering(Next(i, l, DeviceHandles(newId, choice), cfg))
  {
    var msg := l.toDevice[0];
    var h := DeviceEngine.Handle(l.devs, msg, newId, choice, cfg.deviceMax);
    var l' := Next(i, l, DeviceHandles(newId, choice), cfg);
    HeadTaken(l, l', cfg, i);
    CountAppend(l.toHost, h.replies, Write);
    FlowControl.TurnIsBare(i, l, newId, choice, cfg);
    DeviceEngine.TurnIs(l.devs, msg, newId, choice, cfg.deviceMax);
    if msg.command.Open? && choice.accept {
      OpenDelivers(l', DeviceEngine.DevStream(i, DeviceEngine.Chunked(choice.replies, cfg.deviceMax), false), l.devs,
                   newId, choice.finished, h);
    } else if msg.command.Write? && msg.arg1 in l.devs {
      WriteDelivers(l, l', msg, choice, cfg, h);
    } else if msg.command.Okay? && msg.arg1 in l.devs {
      OkayDelivers(l', l.devs[msg.arg1].(inFlight := false), l.devs, msg.arg1, choice.finished, h);
    }
  }

  lemma OkayDelivers(l': Local, at: DeviceEngine.DevStream, devs: DeviceEngine.Streams, id: u32, finished: bool,
                     h: DeviceEngine.Handled)
    requires l'.rec.Some? && l'.rec.value.log.deviceId == id && l'.devs == h.streams && !at.inFlight
    requires DeviceEngine.Pumped(devs, id, at, finished, h.streams, h.replies)
    requires Count(l'.toHost, Write) >= Count(h.replies, Write)
    ensures Delivering(l')
  {
    PumpDelivers(devs, id, at, finished, h.streams, h.replies);
  }

  lemma AfterFirst(replies: seq<Message>)
    requires replies != [] && replies[0].command.Okay?
    ensures Count(replies, Write) == Count(replies[1..], Write)
  {
  }

  lemma OpenDelivers(l': Local, at: DeviceEngine.DevStream, devs: DeviceEngine.Streams, newId: u32, finished: bool,
                     h: DeviceEngine.Handled)
    requires l'.rec.Some? && l'.rec.value.log.deviceId == newId && l'.devs == h.streams && !at.inFlight
    requires h.replies != [] && h.replies[0].command.Okay?
    requires DeviceEngine.Pumped(devs, newId, at, finished, h.streams, h.replies[1..])
    requires Count(l'.toHost, Write) >= Count(h.replies, Write)
    ensures Delivering(l')
  {
    AfterFirst(h.replies);
    PumpDelivers(devs, newId, at, finished, h.streams, h.replies[1..]);
  }

  lemma WriteDelivers(l: Local, l': Local, msg: Message, choice: DeviceEngine.Choice, cfg: Config,
                      h: DeviceEngine.Handled)
    requires Sane(cfg) && l.rec.Some? && l'.rec.Some? && Delivering(l)
    requires msg.command.Write? && msg.arg1 == l.rec.value.log.deviceId && msg.arg1 in l.devs
    requires h.replies != [] && h.replies[0].command.Okay?
    requires var at := l.devs[msg.arg1].(queue := l.devs[msg.arg1].queue
                                                  + DeviceEngine.Chunked(choice.replies, cfg.deviceMax));
             DeviceEngine.Pumped(l.devs, msg.arg1, at, choice.finished, h.streams, h.replies[1..])
    requires l'.devs == h.streams && l'.rec.value.log.deviceId == msg.arg1 && l'.rec.value.view == l.rec.value.view
    requires l'.rec.value.owner == l.rec.value.owner && l'.writerUp == l.writerUp && l'.readerUp == l.readerUp
    requires Count(ToDevice(l'), Okay) == Count(ToDevice(l), Okay)
    requires Count(l'.toHost, Write) == Count(l.toHost, Write) + Count(h.replies, Write)
    ensures Delivering(l')
  {
    var at := l.devs[msg.arg1].(queue := l.devs[msg.arg1].queue + DeviceEngine.Chunked(choice.replies, cfg.deviceMax));
    AfterFirst(h.replies);
    PumpDelivers(l.devs, msg.arg1, at, choice.finished, h.streams, h.replies[1..]);
  }

  lemma NextDelivers(i: u32, l: Local, e: Event, cfg: Config)
    requires Sane(cfg) && Inv(i, l, cfg) && Enabled(i, l, e) && Delivering(l)
    ensures Delivering(Next(i, l, e, cfg))
  {
    match e {
      case OwnerCall(_, call) => OwnerDelivers(i, l, call, cfg);
      case ReaderDispatches => ReaderDelivers(i, l, cfg);
      case DeviceHandles(newId, choice) => DeviceDelivers(i, l, newId, choice, cfg);
      case WriterMoves => assert ToDevice(Next(i, l, e, cfg)) == ToDevice(l);
      case _ =>
    }
  }

  lemma StepDelivers(s: System, e: Event, cfg: Config, i: u32)
    requires Sane(cfg) && Good(s, cfg) && Can(s, e) && Delivering(Project(s, i))
    ensures Delivering(Project(Step(s, e, cfg), i))
  {
    Projects(s, e, cfg, i);
    assert Inv(i, Project(s, i), cfg);
    match LocalEvent(s, e, i) {
      case Some(e') => NextDelivers(i, Project(s, i), e', cfg);
      case None =>
    }
  }

  lemma {:induction false} RunDelivers(s: System, es: seq<Event>, cfg: Config, i: u32)
    requires Sane(cfg) && Good(s, cfg) && Runs(s, es, cfg) && Delivering(Project(s, i))
    ensures Delivering(Project(Exec(s, es, cfg), i))
    decreases |es|
  {
    if es != [] {
      StepDelivers(s, es[0], cfg, i);
      StepKeeps(s, es[0], cfg);
      RunDelivers(Step(s, es[0], cfg), es[1..], cfg, i);
    }
  }

  lemma ReachableDelivers(s: System, cfg: Config, i: u32)
    requires Sane(cfg) && Reachable(s, cfg)
    ensures Delivering(Project(s, i)) && Inv(i, Project(s, i), cfg)
  {
    var es :| Runs(START, es, cfg) && Exec(START, es, cfg) == s;
    StartGood(cfg);
    assert Delivering(Project(START, i));
    RunDelivers(START, es, cfg, i);
    ReachableGood(s, cfg);
  }

  /** Nothing is under way in a session whose writer, device and reader have nothing to do. */
  lemma QuietIsEmpty(s: System)
    requires s.writerUp && s.readerUp && s.nextDev < U32_MAX && forall e :: Internal(e) ==> !Can(s, e)
    ensures s.outbox == [] && s.toDevice == [] && s.toHost == []
  {
    assert !Can(s, WriterMoves) && !Can(s, ReaderDispatches);
    assert !Can(s, DeviceHandles(s.nextDev, DeviceEngine.Choice(false, [], false)));
  }

  /** With nothing under way, what the caller has been handed and what is in its queue is the beginning
      of what the service produced; and the queue is empty only if that is all. */
  lemma QuietQueue(s: System, cfg: Config, i: u32)
    requires Sane(cfg) && Reachable(s, cfg) && s.writerUp && s.readerUp && i in s.streams && Live(s.streams[i])
    requires s.outbox == [] && s.toDevice == [] && s.toHost == []
    ensures var r := s.streams[i];
            && r.log.handed + r.view.queue <= r.log.produced
            && (r.view.queue == [] ==> r.log.handed == r.log.produced)
  {
    ReachableDelivers(s, cfg, i);
    var r := s.streams[i];
    assert ToDevice(Project(s, i)) == [];
    assert Writes([]) == [];
  }

  /** The next chunk can be had or there is none: in a quiet session the owner of an open stream can
      call `recv` and gets the next chunk the service produced, or it has got all of them. */
  lemma NothingIsHeldBack(s: System, cfg: Config, i: u32)
    requires Sane(cfg) && Reachable(s, cfg) && s.writerUp && s.readerUp && s.nextDev < U32_MAX
    requires i in s.streams && Live(s.streams[i]) && s.streams[i].owner.Idle?
    requires forall e :: Internal(e) ==> !Can(s, e)
    ensures var log := s.streams[i].log;
            if Can(s, OwnerCall(i, Recv)) then
              && |log.handed| < |log.produced|
              && var r' := Step(s, OwnerCall(i, Recv), cfg).streams[i];
                 && r'.outcome == Received(log.produced[|log.handed|])
                 && r'.log.handed == log.produced[..|log.handed| + 1]
            else log.handed == log.produced
  {
    QuietIsEmpty(s);
    QuietQueue(s, cfg, i);
    ReachableGood(s, cfg);
    assert Inv(i, Project(s, i), cfg);
    var r := s.streams[i];
    if r.view.queue != [] {
      NextChunk(r.log.handed, r.view.queue, r.log.produced);
    }
  }

  lemma NextChunk(handed: seq<Data>, queue: seq<Data>, produced: seq<Data>)
    requires queue != [] && handed + queue <= produced
    ensures |handed| < |produced| && produced[|handed|] == queue[0]
    ensures handed + [queue[0]] == produced[..|handed| + 1]
  {
    assert (handed + queue)[|handed|] == queue[0];
    assert produced[..|handed + queue|] == handed + queue;
  }
}
