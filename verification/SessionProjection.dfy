/** The multiplexing proof: what a stream sees of a session step is a step of that stream. */
module SessionProjection {
  import opened Bytes
  import opened Wire
  import opened StreamModel
  import opened StreamMachine
  import opened StreamInvariant
  import opened SessionSystem
  import DeviceEngine

  lemma OpenProjects(s: System, id: u32, service: Data, cfg: Config, i: u32)
    requires Sane(cfg) && Can(s, OpenCall(id, service))
    ensures var s' := Step(s, OpenCall(id, service), cfg);
            Project(s', i) == if i == id then Next(i, Project(s, i), OpenCall(id, service), cfg) else Project(s, i)
  {
    var posts := OpenStream(id, service, s.writerUp).1;
    FromAppend(s.outbox, posts, i);
    AllFrom(posts, id, i);
  }

  lemma OwnerProjects(s: System, id: u32, call: Call, cfg: Config, i: u32)
    requires Sane(cfg) && Can(s, OwnerCall(id, call))
    ensures var s' := Step(s, OwnerCall(id, call), cfg);
            Project(s', i) == if i == id then Next(i, Project(s, i), OwnerCall(id, call), cfg) else Project(s, i)
  {
    var posts := OwnerStep(id, s.streams[id], call, s.writerUp, cfg.maxPayload).1;
    FromAppend(s.outbox, posts, i);
    OwnerPosts(id, s.streams[id], call, s.writerUp, cfg.maxPayload, i);
  }

  lemma WriterProjects(s: System, cfg: Config, i: u32)
    requires Sane(cfg) && Can(s, WriterMoves)
    ensures var s' := Step(s, WriterMoves, cfg);
            var l := Project(s, i);
            if s.outbox[0].arg0 == i then Enabled(i, l, WriterMoves) && Project(s', i) == Next(i, l, WriterMoves, cfg)
            else Project(s', i) == l
  {
    var m := s.outbox[0];
    FromAppend(s.toDevice, [m], i);
    assert From([m], i) == if m.arg0 == i then [m] else [];
    if m.arg0 == i {
      assert From(s.outbox, i)[1..] == From(s.outbox[1..], i);
    }
  }

  lemma RestrictUpdate(devs: DeviceEngine.Streams, d: u32, v: DeviceEngine.DevStream, i: u32)
    requires d in devs ==> devs[d].host == v.host
    ensures Restrict(devs[d := v], i) == if v.host == i then Restrict(devs, i)[d := v] else Restrict(devs, i)
  {
  }

  lemma RestrictRemove(devs: DeviceEngine.Streams, d: u32, host: u32, i: u32)
    requires d in devs ==> devs[d].host == host
    ensures Restrict(devs - {d}, i) == if host == i then Restrict(devs, i) - {d} else Restrict(devs, i)
  {
  }

  lemma PumpProjects(devs: DeviceEngine.Streams, id: u32, finished: bool, i: u32)
    requires id in devs
    ensures var h := DeviceEngine.Pump(devs, id, finished);
            && (forall m :: m in h.replies ==> m.arg1 == devs[id].host)
            && if i == devs[id].host then
                 DeviceEngine.Pump(Restrict(devs, i), id, finished)
                   == DeviceEngine.Handled(Restrict(h.streams, i), h.replies)
               else Restrict(h.streams, i) == Restrict(devs, i)
  {
    var s := devs[id];
    if s.queue != [] {
      RestrictUpdate(devs, id, s.(queue := s.queue[1..], inFlight := true), i);
    }
    RestrictRemove(devs, id, s.host, i);
  }

  /** The device works only on the entry of the stream that the message is about. */
  lemma HandleProjects(devs: DeviceEngine.Streams, msg: Message, newId: u32, choice: DeviceEngine.Choice, max: nat,
                       i: u32)
    requires max > 0 && newId !in devs
    requires !msg.command.Open? && msg.arg1 in devs ==> devs[msg.arg1].host == msg.arg0
    ensures var h := DeviceEngine.Handle(devs, msg, newId, choice, max);
            && (forall m :: m in h.replies ==> m.arg1 == msg.arg0)
            && if i == msg.arg0 then
                 DeviceEngine.Handle(Restrict(devs, i), msg, newId, choice, max)
                   == DeviceEngine.Handled(Restrict(h.streams, i), h.replies)
               else Restrict(h.streams, i) == Restrict(devs, i)
  {
    var d := msg.arg1;
    var chunks := DeviceEngine.Chunked(choice.replies, max);
    match msg.command {
      case Open =>
        var v := DeviceEngine.DevStream(msg.arg0, chunks, false);
        RestrictUpdate(devs, newId, v, i);
        PumpProjects(devs[newId := v], newId, choice.finished, i);
      case Write =>
        if d in devs {
          var v := devs[d].(queue := devs[d].queue + chunks);
          RestrictUpdate(devs, d, v, i);
          PumpProjects(devs[d := v], d, choice.finished, i);
        }
      case Okay =>
        if d in devs {
          var v := devs[d].(inFlight := false);
          RestrictUpdate(devs, d, v, i);
          PumpProjects(devs[d := v], d, choice.finished, i);
        }
      case Close => RestrictRemove(devs, d, msg.arg0, i);
      case _ =>
    }
  }

  /** A device id belongs to the stream that adopted it. */
  lemma HostOf(s: System, i: u32, d: u32, cfg: Config)
    requires Good(s, cfg) && i in s.streams && d in s.devs && d == s.streams[i].log.deviceId != 0
    ensures s.devs[d].host == i
  {
    var j := s.devs[d].host;
    assert Inv(j, Project(s, j), cfg);
    assert d in Restrict(s.devs, j);
  }

  lemma {:induction false} FromMember(ms: seq<Message>, m: Message)
    requires m in ms
    ensures m in From(ms, m.arg0)
  {
    if ms[0] != m {
      FromMember(ms[1..], m);
    }
  }

  /** The message at the head of the wire names the device entry of its own stream. */
  lemma HeadIsOwn(s: System, cfg: Config)
    requires Good(s, cfg) && s.toDevice != []
    ensures HeadOwned(s)
  {
    var msg := s.toDevice[0];
    var i := msg.arg0;
    var l := Project(s, i);
    assert Inv(i, l, cfg);
    assert l.toDevice[0] == msg;
    assert msg in ToDevice(l);
    assert OutgoingOk(i, s.streams[i].log.deviceId, msg);
    if !msg.command.Open? && msg.arg1 in s.devs {
      HostOf(s, i, msg.arg1, cfg);
    }
  }

  /** The log of a stream reads the device's table only for its own WRTEs. */
  lemma LogAgrees(log: Log, known: bool, known': bool, msg: Message, newId: u32, choice: DeviceEngine.Choice,
                  replies: seq<Message>, max: nat)
    requires max > 0 && (msg.command.Write? ==> known == known')
    ensures LogDevice(log, known, msg, newId, choice, replies, max)
            == LogDevice(log, known', msg, newId, choice, replies, max)
  {
  }

  /** What `HeadIsOwn` provides. */
  predicate HeadOwned(s: System) {
    && s.toDevice != []
    && var msg := s.toDevice[0];
       && msg.arg0 in s.streams
       && (!msg.command.Open? && msg.arg1 in s.devs ==> s.devs[msg.arg1].host == msg.arg0)
       && From(s.toDevice, msg.arg0) == [msg] + From(s.toDevice[1..], msg.arg0)
  }

  lemma HandledProjects(s: System, newId: u32, choice: DeviceEngine.Choice, cfg: Config, i: u32)
    requires Sane(cfg) && HeadOwned(s) && Can(s, DeviceHandles(newId, choice)) && newId !in s.devs && newId != 0
    ensures var e := DeviceHandles(newId, choice);
            var s' := Step(s, e, cfg);
            var l := Project(s, i);
            if s.toDevice[0].arg0 == i then Enabled(i, l, e) && Project(s', i) == Next(i, l, e, cfg)
            else Project(s', i) == l
  {
    var msg, l := s.toDevice[0], Project(s, i);
    var h := DeviceEngine.Handle(s.devs, msg, newId, choice, cfg.deviceMax);
    HandleProjects(s.devs, msg, newId, choice, cfg.deviceMax, i);
    ToAppend(s.toHost, h.replies, i);
    AllTo(h.replies, msg.arg0, i);
    if msg.arg0 == i {
      assert l.toDevice[0] == msg && l.toDevice[1..] == From(s.toDevice[1..], i);
      LogAgrees(s.streams[i].log, msg.arg1 in s.devs, msg.arg1 in l.devs, msg, newId, choice, h.replies, cfg.deviceMax);
    }
  }

  lemma DeviceProjects(s: System, newId: u32, choice: DeviceEngine.Choice, cfg: Config, i: u32)
    requires Sane(cfg) && Good(s, cfg) && Can(s, DeviceHandles(newId, choice))
    ensures var e := DeviceHandles(newId, choice);
            var s' := Step(s, e, cfg);
            var l := Project(s, i);
            if s.toDevice[0].arg0 == i then Enabled(i, l, e) && Project(s', i) == Next(i, l, e, cfg)
            else Project(s', i) == l
  {
    HeadIsOwn(s, cfg);
    HandledProjects(s, newId, choice, cfg, i);
  }

  /** The stream whose message stopped the reader is closed by the same `close_all`. */
  lemma StopTwice(r: Rec)
    ensures StopReader(StopReader(r)) == StopReader(r)
  {
  }

  lemma ReaderOwn(s: System, cfg: Config, i: u32)
    requires Sane(cfg) && Can(s, ReaderDispatches) && s.toHost[0].arg1 == i
    ensures var l := Project(s, i);
            && Enabled(i, l, ReaderDispatches)
            && Project(Step(s, ReaderDispatches, cfg), i) == Next(i, l, ReaderDispatches, cfg)
  {
    var msg := s.toHost[0];
    var step := ReaderStep(RecordOf(s, i), msg, s.writerUp);
    FromAppend(s.outbox, step.1, i);
    AllFrom(step.1, i, i);
    assert To(s.toHost, i)[0] == msg && To(s.toHost, i)[1..] == To(s.toHost[1..], i);
    if step.0.Some? && step.2 {
      assert exists r' :: step.0 == Some(StopReader(r')) by {
        var e := Entry(s.streams[i].view, s.streams[i].registered);
        var d := Dispatch(e, msg);
        var r' := s.streams[i].(view := d.entry.view, registered := d.entry.registered,
                                log := LogDispatch(s.streams[i].log, e, msg));
        assert step.0 == Some(StopReader(r'));
      }
      var r' :| step.0 == Some(StopReader(r'));
      StopTwice(r');
    }
  }

  /** The queues that another stream sees of a dispatch. */
  lemma ReaderOtherQueues(s: System, cfg: Config, i: u32)
    requires Sane(cfg) && Can(s, ReaderDispatches) && s.toHost[0].arg1 != i
    ensures var s' := Step(s, ReaderDispatches, cfg);
            From(s'.outbox, i) == From(s.outbox, i) && To(s'.toHost, i) == To(s.toHost, i)
  {
    var msg := s.toHost[0];
    var posts := ReaderStep(RecordOf(s, msg.arg1), msg, s.writerUp).1;
    FromAppend(s.outbox, posts, i);
    AllFrom(posts, msg.arg1, i);
    assert To(s.toHost, i) == To(s.toHost[1..], i);
  }

  lemma ReaderOther(s: System, cfg: Config, i: u32)
    requires Sane(cfg) && Can(s, ReaderDispatches) && s.toHost[0].arg1 != i
    ensures var l := Project(s, i);
            var s' := Step(s, ReaderDispatches, cfg);
            Project(s', i) == if LocalEvent(s, ReaderDispatches, i).Some? then Next(i, l, ReaderStops, cfg) else l
  {
    ReaderOtherQueues(s, cfg, i);
  }

  lemma ReaderProjects(s: System, cfg: Config, i: u32)
    requires Sane(cfg) && Can(s, ReaderDispatches)
    ensures var s' := Step(s, ReaderDispatches, cfg);
            var l := Project(s, i);
            match LocalEvent(s, ReaderDispatches, i)
            case Some(e) => Enabled(i, l, e) && Project(s', i) == Next(i, l, e, cfg)
            case None => Project(s', i) == l
  {
    if s.toHost[0].arg1 == i {
      ReaderOwn(s, cfg, i);
    } else {
      ReaderOther(s, cfg, i);
    }
  }

  /** Every step of the session is, for each stream, one of its own steps or no step. */
  lemma Projects(s: System, e: Event, cfg: Config, i: u32)
    requires Sane(cfg) && Good(s, cfg) && Can(s, e)
    ensures var s' := Step(s, e, cfg);
            var l := Project(s, i);
            match LocalEvent(s, e, i)
            case Some(e') => Enabled(i, l, e') && Project(s', i) == Next(i, l, e', cfg)
            case None => Project(s', i) == l
  {
    match e {
      case OpenCall(id, service) => OpenProjects(s, id, service, cfg, i);
      case OwnerCall(id, call) => OwnerProjects(s, id, call, cfg, i);
      case WriterMoves => WriterProjects(s, cfg, i);
      case DeviceHandles(newId, choice) => DeviceProjects(s, newId, choice, cfg, i);
      case ReaderDispatches => ReaderProjects(s, cfg, i);
      case WriterStops =>
      case ReaderStops =>
    }
  }
}
