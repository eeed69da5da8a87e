/** Every wait comes to an end: from any state with the writer and the reader alive, every schedule
    of the writer, the device and the reader runs dry, and then every waiting owner wakes to an
    answer. */
module SessionLiveness {
  import opened Bytes
  import opened Wire
  import opened StreamModel
  import opened StreamMachine
  import opened StreamInvariant
  import opened SessionSystem
  import opened SessionInvariant
  import opened SessionProgress
  import DeviceEngine

  predicate Up(s: System) {
    s.writerUp && s.readerUp
  }

  ghost predicate Quiet(s: System) {
    forall e :: Internal(e) ==> !Can(s, e)
  }

  predicate AllInternal(es: seq<Event>) {
    forall k :: 0 <= k < |es| ==> Internal(es[k])
  }

  /** The device never says anything that would stop the reader. */
  lemma HeadIsHarmless(s: System, cfg: Config)
    requires Sane(cfg) && Reachable(s, cfg) && s.toHost != []
    ensures var m := s.toHost[0]; m.command.Write? || m.command.Okay? || m.command.Close?
  {
    ReachableGood(s, cfg);
    var m := s.toHost[0];
    assert Inv(m.arg1, Project(s, m.arg1), cfg);
    assert To(s.toHost, m.arg1)[0] == m;
    assert m in To(s.toHost, m.arg1);
    assert m.arg1 in s.streams;
    assert IncomingOk(m.arg1, s.streams[m.arg1].log.deviceId, m);
  }

  lemma InternalKeepsUp(s: System, e: Event, cfg: Config)
    requires Sane(cfg) && Reachable(s, cfg) && Up(s) && Can(s, e) && Internal(e)
    ensures Up(Step(s, e, cfg)) && Step(s, e, cfg).nextDev <= s.nextDev + 1
  {
    if e.ReaderDispatches? {
      HeadIsHarmless(s, cfg);
    }
  }

  lemma {:induction false} InternalRunKeepsUp(s: System, es: seq<Event>, cfg: Config)
    requires Sane(cfg) && Reachable(s, cfg) && Up(s) && Runs(s, es, cfg) && AllInternal(es)
    ensures Up(Exec(s, es, cfg)) && Exec(s, es, cfg).nextDev <= s.nextDev + |es|
    decreases |es|
  {
    if es != [] {
      InternalKeepsUp(s, es[0], cfg);
      ReachableNext(s, es[0], cfg);
      InternalRunKeepsUp(Step(s, es[0], cfg), es[1..], cfg);
    }
  }

  /** No schedule leaves an owner waiting: when nothing is left to do, which takes at most `Work(s)`
      steps, the owner has a permit and an answer, and the wait it wakes from ends. */
  lemma WaitEnds(s: System, es: seq<Event>, cfg: Config, i: u32)
    requires Sane(cfg) && Reachable(s, cfg) && Up(s) && i in s.streams && Blocked(s.streams[i])
    requires Runs(s, es, cfg) && AllInternal(es) && Quiet(Exec(s, es, cfg)) && s.nextDev + Work(s) < U32_MAX
    ensures |es| <= Work(s)
    ensures var s' := Exec(s, es, cfg);
            && Can(s', OwnerCall(i, Wake)) && AnsweredOwner(s'.streams[i])
            && var r, r' := s'.streams[i], Step(s', OwnerCall(i, Wake), cfg).streams[i];
               r'.owner.Idle? || r'.owner.Gone? || r'.log.acked == r.log.acked + 1
  {
    assert forall e :: e in es ==> Internal(e);
    InternalRunsEnd(s, es, cfg);
    InternalRunKeepsUp(s, es, cfg);
    ReachableOn(s, es, cfg);
    WaitGoesOnRun(s, es, cfg, i);
    NobodyIsStuck(Exec(s, es, cfg), cfg, i);
  }

  /** What the writer, the device or the reader can do next, if anything. */
  function NextInternal(s: System): Option<Event> {
    if s.writerUp && s.outbox != [] then Some(WriterMoves)
    else if s.toDevice != [] && s.nextDev < U32_MAX then
      Some(DeviceHandles(s.nextDev, DeviceEngine.Choice(false, [], false)))
    else if s.readerUp && s.toHost != [] then Some(ReaderDispatches)
    else None
  }

  /** Such a schedule exists. */
  lemma {:induction false} ScheduleExists(s: System, cfg: Config) returns (es: seq<Event>)
    requires Sane(cfg)
    ensures Runs(s, es, cfg) && AllInternal(es) && Quiet(Exec(s, es, cfg))
    decreases Work(s)
  {
    match NextInternal(s) {
      case None => es := [];
      case Some(e) =>
        InternalStepsWork(s, e, cfg);
        var more := ScheduleExists(Step(s, e, cfg), cfg);
        es := [e] + more;
        assert es[1..] == more;
    }
  }
}
