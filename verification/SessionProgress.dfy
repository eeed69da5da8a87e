/** Nobody waits for ever: the queues drain in a bounded number of steps, and then every waiting
    owner can be woken and finishes its wait. */
module SessionProgress {
  import opened Bytes
  import opened Wire
  import opened StreamModel
  import opened StreamMachine
  import opened StreamInvariant
  import opened SessionSystem
  import opened SessionProjection
  import opened SessionInvariant
  import DeviceEngine

  predicate Internal(e: Event) {
    e.WriterMoves? || e.DeviceHandles? || e.ReaderDispatches?
  }

  predicate AnsweredByDevice(m: Message) {
    m.command.Open? || m.command.Write? || m.command.Okay?
  }

  /** How many steps a message can still cause: a device answers with an OKAY and a WRTE at most,
      and the reader answers a WRTE with a CLSE at most. */
  function OutboxWork(m: Message): nat {
    if AnsweredByDevice(m) then 6 else 2
  }

  function DeviceWork(m: Message): nat {
    if AnsweredByDevice(m) then 5 else 1
  }

  function HostWork(m: Message): nat {
    if m.command.Write? then 3 else 1
  }

  function Total(ms: seq<Message>, work: Message -> nat): nat {
    if ms == [] then 0 else work(ms[0]) + Total(ms[1..], work)
  }

  function Work(s: System): nat {
    Total(s.outbox, OutboxWork) + Total(s.toDevice, DeviceWork) + Total(s.toHost, HostWork)
  }

  lemma {:induction false} TotalAppend(a: seq<Message>, b: seq<Message>, work: Message -> nat)
    ensures Total(a + b, work) == Total(a, work) + Total(b, work)
  {
    if a == [] {
      assert a + b == b;
    } else {
      TotalAppend(a[1..], b, work);
      assert (a + b)[1..] == a[1..] + b;
    }
  }

  lemma TotalOne(m: Message, work: Message -> nat)
    ensures Total([m], work) == work(m)
  {
    assert Total([m], work) == work(m) + Total([], work);
  }

  lemma RepliesAreCheap(devs: DeviceEngine.Streams, m: Message, newId: u32, choice: DeviceEngine.Choice, max: nat)
    requires max > 0
    ensures Total(DeviceEngine.Handle(devs, m, newId, choice, max).replies, HostWork) < DeviceWork(m)
  {
    var replies := DeviceEngine.Handle(devs, m, newId, choice, max).replies;
    if |replies| == 1 {
      TotalOne(replies[0], HostWork);
      assert replies == [replies[0]];
    } else if |replies| == 2 {
      TotalOne(replies[1], HostWork);
      assert replies[1..] == [replies[1]];
    }
  }

  lemma InternalStepsWork(s: System, e: Event, cfg: Config)
    requires Sane(cfg) && Can(s, e) && Internal(e)
    ensures Work(Step(s, e, cfg)) < Work(s)
  {
    match e {
      case WriterMoves =>
        TotalAppend(s.toDevice, [s.outbox[0]], DeviceWork);
        TotalOne(s.outbox[0], DeviceWork);
      case DeviceHandles(newId, choice) =>
        var replies := DeviceEngine.Handle(s.devs, s.toDevice[0], newId, choice, cfg.deviceMax).replies;
        TotalAppend(s.toHost, replies, HostWork);
        RepliesAreCheap(s.devs, s.toDevice[0], newId, choice, cfg.deviceMax);
      case ReaderDispatches =>
        var msg := s.toHost[0];
        var posts := ReaderStep(RecordOf(s, msg.arg1), msg, s.writerUp).1;
        TotalAppend(s.outbox, posts, OutboxWork);
        if posts != [] {
          assert posts == [posts[0]];
          TotalOne(posts[0], OutboxWork);
        }
    }
  }

  /** However the writer, the device and the reader are scheduled, and whatever the services reply,
      they run out of work after at most `Work(s)` steps unless an owner makes a call. */
  lemma {:induction false} InternalRunsEnd(s: System, es: seq<Event>, cfg: Config)
    requires Sane(cfg) && Runs(s, es, cfg) && forall e :: e in es ==> Internal(e)
    ensures |es| <= Work(s)
    decreases |es|
  {
    if es != [] {
      assert es[0] in es;
      InternalStepsWork(s, es[0], cfg);
      forall e | e in es[1..] ensures Internal(e) {
        assert e in es;
      }
      InternalRunsEnd(Step(s, es[0], cfg), es[1..], cfg);
    }
  }

  /** An owner that waits without an answer has its OPEN or WRTE, its OKAY, or a CLSE under way. */
  lemma WaitIsAnswered(s: System, cfg: Config, i: u32)
    requires Sane(cfg) && Reachable(s, cfg) && i in s.streams && s.writerUp && s.readerUp
    requires Blocked(s.streams[i]) && !s.streams[i].view.closed && s.streams[i].view.acks == Seen(s.streams[i])
    ensures var l := Project(s, i);
            Requests(ToDevice(l)) + Count(l.toHost, Okay) == 1 || Count(l.toHost, Close) > 0
  {
    ReachableGood(s, cfg);
    assert Inv(i, Project(s, i), cfg);
  }

  /** The wait of owner `i` ends with success: `open_stream` returns a stream, or `write_chunk` Ok. */
  predicate WaitSucceeds(s: System, cfg: Config, i: u32)
    requires Sane(cfg) && Can(s, OwnerCall(i, Wake))
  {
    var r, r' := s.streams[i], Step(s, OwnerCall(i, Wake), cfg).streams[i];
    if r.owner.Opening? then r'.owner.Idle? && r'.outcome == Opened
    else r'.log.acked == r.log.acked + 1
  }

  predicate AnsweredOwner(r: Rec) {
    r.view.acks > Seen(r) || r.view.closed
  }

  lemma OwnerState(s: System, cfg: Config, i: u32)
    requires Sane(cfg) && Reachable(s, cfg) && i in s.streams
    ensures OwnerOk(s.streams[i])
  {
    ReachableGood(s, cfg);
    assert Inv(i, Project(s, i), cfg);
  }

  /** With nothing under way, a waiting owner has been answered. */
  lemma QuietMeansAnswered(s: System, cfg: Config, i: u32)
    requires Sane(cfg) && Reachable(s, cfg) && i in s.streams && Blocked(s.streams[i])
    requires s.writerUp && s.readerUp && s.outbox == [] && s.toDevice == [] && s.toHost == []
    ensures AnsweredOwner(s.streams[i])
  {
    ReachableGood(s, cfg);
    assert Inv(i, Project(s, i), cfg);
  }

  /** A wait that wakes to an answer ends. */
  lemma AnsweredWaitEnds(s: System, cfg: Config, i: u32)
    requires Sane(cfg) && i in s.streams && OwnerOk(s.streams[i])
    requires Blocked(s.streams[i]) && AnsweredOwner(s.streams[i])
    ensures Can(s, OwnerCall(i, Wake))
    ensures var r, r' := s.streams[i], Step(s, OwnerCall(i, Wake), cfg).streams[i];
            r'.owner.Idle? || r'.owner.Gone? || r'.log.acked == r.log.acked + 1
    ensures WaitSucceeds(s, cfg, i) <==> s.streams[i].view.acks > Seen(s.streams[i])
  {
  }

  /** Once the writer, the device and the reader have nothing left to do, every owner that waits
      has its permit, and the wait that it wakes from ends. */
  lemma NobodyIsStuck(s: System, cfg: Config, i: u32)
    requires Sane(cfg) && Reachable(s, cfg) && i in s.streams && Blocked(s.streams[i])
    requires s.writerUp && s.readerUp && s.nextDev < U32_MAX
    requires forall e :: Internal(e) ==> !Can(s, e)
    ensures Can(s, OwnerCall(i, Wake)) && AnsweredOwner(s.streams[i])
    ensures var r, r' := s.streams[i], Step(s, OwnerCall(i, Wake), cfg).streams[i];
            r'.owner.Idle? || r'.owner.Gone? || r'.log.acked == r.log.acked + 1
  {
    assert !Can(s, WriterMoves) && !Can(s, ReaderDispatches);
    assert !Can(s, DeviceHandles(s.nextDev, DeviceEngine.Choice(false, [], false)));
    QuietMeansAnswered(s, cfg, i);
    OwnerState(s, cfg, i);
    AnsweredWaitEnds(s, cfg, i);
  }

  /** What a message, addressed to it or stopping the reader, leaves of a wait. */
  predicate WaitKept(r: Rec, r': Rec) {
    && r'.owner == r.owner && r'.log.acked == r.log.acked
    && r'.view.acks >= r.view.acks
    && (r.view.remote != 0 ==> r'.view.remote == r.view.remote)
    && (r.view.closed ==> r'.view.closed)
    && (!r.registered ==> !r'.registered && r'.view.acks == r.view.acks && r'.view.remote == r.view.remote)
  }

  lemma WaitSurvivesDispatch(r: Rec, msg: Message, writerUp: bool)
    ensures var rec := ReaderStep(Some(r), msg, writerUp).0; rec.Some? && WaitKept(r, rec.value)
    ensures forall r' :: WaitKept(r, r') ==> WaitKept(r, StopReader(r'))
  {
  }

  lemma WaitSurvivesReader(s: System, cfg: Config, i: u32)
    requires Sane(cfg) && Can(s, ReaderDispatches) && i in s.streams
    ensures var s' := Step(s, ReaderDispatches, cfg);
            i in s'.streams && WaitKept(s.streams[i], s'.streams[i])
  {
    WaitSurvivesDispatch(s.streams[i], s.toHost[0], s.writerUp);
  }

  /** While an owner waits, no other step takes its wait away, takes back an acknowledgement or
      reopens the stream; once the stream has left the registry no acknowledgement is added. */
  lemma WaitGoesOn(s: System, e: Event, cfg: Config, i: u32)
    requires Sane(cfg) && Can(s, e) && i in s.streams && Blocked(s.streams[i]) && e != OwnerCall(i, Wake)
    ensures var s' := Step(s, e, cfg);
            i in s'.streams && WaitKept(s.streams[i], s'.streams[i])
  {
    if e.ReaderDispatches? {
      WaitSurvivesReader(s, cfg, i);
    }
  }

  lemma {:induction false} WaitGoesOnRun(s: System, es: seq<Event>, cfg: Config, i: u32)
    requires Sane(cfg) && Runs(s, es, cfg) && i in s.streams && Blocked(s.streams[i]) && OwnerCall(i, Wake) !in es
    ensures var s' := Exec(s, es, cfg);
            i in s'.streams && WaitKept(s.streams[i], s'.streams[i])
    decreases |es|
  {
    if es != [] {
      assert es[0] in es;
      WaitGoesOn(s, es[0], cfg, i);
      assert OwnerCall(i, Wake) !in es[1..];
      WaitGoesOnRun(Step(s, es[0], cfg), es[1..], cfg, i);
    }
  }

  /** What one dispatched message does to an open stream whose owner waits. */
  lemma DispatchedToWaiting(s: System, cfg: Config, i: u32)
    requires Sane(cfg) && Can(s, ReaderDispatches) && i in s.streams && s.toHost[0].arg1 == i
    requires OwnerOk(s.streams[i]) && Blocked(s.streams[i]) && !s.streams[i].view.closed
    ensures var r, r' := s.streams[i], Step(s, ReaderDispatches, cfg).streams[i];
            && r'.owner == r.owner
            && (s.toHost[0].command.Okay? ==> r'.view == AckView(r.view, s.toHost[0].arg0))
            && (s.toHost[0].command.Close? ==> r'.view == CloseView(r.view) && !r'.registered)
  {
  }

  /** OKAY then CLSE reads as "written, then closed": an OKAY dispatched to a waiting owner settles
      its wait as a success, whatever the session does before the owner runs. */
  lemma OkayThenClose(s: System, es: seq<Event>, cfg: Config, i: u32)
    requires Sane(cfg) && Reachable(s, cfg) && Can(s, ReaderDispatches)
    requires i in s.streams && Blocked(s.streams[i]) && !s.streams[i].view.closed
    requires s.toHost[0].command.Okay? && s.toHost[0].arg1 == i
    requires Runs(Step(s, ReaderDispatches, cfg), es, cfg) && OwnerCall(i, Wake) !in es
    ensures var s' := Exec(Step(s, ReaderDispatches, cfg), es, cfg);
            Can(s', OwnerCall(i, Wake)) && WaitSucceeds(s', cfg, i)
  {
    OwnerState(s, cfg, i);
    DispatchedToWaiting(s, cfg, i);
    SettledWait(s, es, cfg, i);
  }

  /** And the other way round: a CLSE dispatched to an owner that has no acknowledgement yet settles
      its wait as a failure. */
  lemma CloseThenOkay(s: System, es: seq<Event>, cfg: Config, i: u32)
    requires Sane(cfg) && Reachable(s, cfg) && Can(s, ReaderDispatches)
    requires i in s.streams && Blocked(s.streams[i]) && !s.streams[i].view.closed
    requires s.streams[i].view.acks == Seen(s.streams[i])
    requires s.toHost[0].command.Close? && s.toHost[0].arg1 == i
    requires Runs(Step(s, ReaderDispatches, cfg), es, cfg) && OwnerCall(i, Wake) !in es
    ensures var s' := Exec(Step(s, ReaderDispatches, cfg), es, cfg);
            Can(s', OwnerCall(i, Wake)) && !WaitSucceeds(s', cfg, i)
  {
    OwnerState(s, cfg, i);
    DispatchedToWaiting(s, cfg, i);
    SettledWait(s, es, cfg, i);
  }

  /** After a dispatch that answers owner `i`, nothing changes the answer before the owner wakes. */
  lemma SettledWait(s: System, es: seq<Event>, cfg: Config, i: u32)
    requires Sane(cfg) && Reachable(s, cfg) && Can(s, ReaderDispatches)
    requires var s1 := Step(s, ReaderDispatches, cfg);
             && i in s1.streams && Blocked(s1.streams[i])
             && (s1.streams[i].view.acks > Seen(s1.streams[i])
                 || (s1.streams[i].view.closed && !s1.streams[i].registered))
             && Runs(s1, es, cfg) && OwnerCall(i, Wake) !in es
    ensures var s1 := Step(s, ReaderDispatches, cfg);
            var s' := Exec(s1, es, cfg);
            && Can(s', OwnerCall(i, Wake))
            && (WaitSucceeds(s', cfg, i) <==> s1.streams[i].view.acks > Seen(s1.streams[i]))
  {
    var s1 := Step(s, ReaderDispatches, cfg);
    var s' := Exec(s1, es, cfg);
    assert Exec(s, [ReaderDispatches], cfg) == s1;
    ReachableOn(s, [ReaderDispatches], cfg);
    ReachableOn(s1, es, cfg);
    WaitGoesOnRun(s1, es, cfg, i);
    OwnerState(s', cfg, i);
    AnsweredWaitEnds(s', cfg, i);
  }
}
