/** Every run of a session keeps the invariant of every stream. */
module SessionInvariant {
  import opened Bytes
  import opened Wire
  import opened StreamIds
  import opened StreamModel
  import opened StreamMachine
  import opened StreamInvariant
  import opened StreamPreservedPeer
  import opened SessionSystem
  import opened SessionProjection
  import DeviceEngine

  lemma StartGood(cfg: Config)
    ensures Good(START, cfg)
  {
  }

  /** The id the device has given stream `i`, 0 if none. */
  function DeviceId(s: System, i: u32): u32 {
    if i in s.streams then s.streams[i].log.deviceId else 0
  }

  predicate Accepts(s: System, e: Event, i: u32) {
    && e.DeviceHandles? && s.toDevice != []
    && s.toDevice[0].command.Open? && e.choice.accept && s.toDevice[0].arg0 == i
  }

  /** Who gets a device id in a step. */
  lemma DeviceIdsChange(s: System, e: Event, cfg: Config, i: u32)
    requires Sane(cfg) && Can(s, e)
    ensures var s' := Step(s, e, cfg);
            && (Accepts(s, e, i) && i in s.streams ==> DeviceId(s', i) == s.nextDev == s'.nextDev - 1)
            && (!Accepts(s, e, i) ==> DeviceId(s', i) == 0 || DeviceId(s', i) == DeviceId(s, i))
            && s.nextDev <= s'.nextDev
            && (i in s'.streams ==> i in s.streams || (e.OpenCall? && e.id == i && s'.opens == s.opens + 1))
            && s.opens <= s'.opens
  {
  }

  lemma DeviceTableChange(s: System, e: Event, cfg: Config)
    requires Sane(cfg) && Can(s, e) && forall d :: d in s.devs ==> d < s.nextDev
    ensures var s' := Step(s, e, cfg); forall d :: d in s'.devs ==> d < s'.nextDev
  {
  }

  lemma StreamKeeps(s: System, e: Event, cfg: Config, i: u32)
    requires Sane(cfg) && Good(s, cfg) && Can(s, e)
    ensures Inv(i, Project(Step(s, e, cfg), i), cfg)
  {
    Projects(s, e, cfg, i);
    match LocalEvent(s, e, i) {
      case Some(e') => NextKeeps(i, Project(s, i), e', cfg);
      case None =>
    }
  }

  lemma StepKeeps(s: System, e: Event, cfg: Config)
    requires Sane(cfg) && Good(s, cfg) && Can(s, e)
    ensures Good(Step(s, e, cfg), cfg)
  {
    var s' := Step(s, e, cfg);
    forall i: u32 ensures Inv(i, Project(s', i), cfg) {
      StreamKeeps(s, e, cfg, i);
    }
    DeviceTableChange(s, e, cfg);
    IdsStayApart(s, e, cfg);
    forall i | i in s'.streams ensures exists k :: 0 <= k < s'.opens && i == IdOf(k) {
      DeviceIdsChange(s, e, cfg, i);
      if i in s.streams {
        var k :| 0 <= k < s.opens && i == IdOf(k);
        assert 0 <= k < s'.opens && i == IdOf(k);
      } else {
        assert 0 <= s.opens < s'.opens && i == IdOf(s.opens);
      }
    }
  }

  lemma IdsStayApart(s: System, e: Event, cfg: Config)
    requires Sane(cfg) && Can(s, e) && IdsApart(s)
    ensures IdsApart(Step(s, e, cfg))
  {
    var s' := Step(s, e, cfg);
    forall i | i in s'.streams
      ensures s'.streams[i].log.deviceId < s'.nextDev
      ensures s'.streams[i].log.deviceId == DeviceId(s, i) || s'.streams[i].log.deviceId == 0 || Accepts(s, e, i)
    {
      DeviceIdsChange(s, e, cfg, i);
    }
    forall i, j | i in s'.streams && j in s'.streams && i != j
      ensures s'.streams[i].log.deviceId == 0 || s'.streams[i].log.deviceId != s'.streams[j].log.deviceId
    {
      DeviceIdsChange(s, e, cfg, i);
      DeviceIdsChange(s, e, cfg, j);
    }
  }

  /** A run of the session. */
  predicate Runs(s: System, es: seq<Event>, cfg: Config)
    requires Sane(cfg)
    decreases |es|
  {
    es == [] || (Can(s, es[0]) && Runs(Step(s, es[0], cfg), es[1..], cfg))
  }

  function Exec(s: System, es: seq<Event>, cfg: Config): System
    requires Sane(cfg) && Runs(s, es, cfg)
    decreases |es|
  {
    if es == [] then s else Exec(Step(s, es[0], cfg), es[1..], cfg)
  }

  lemma {:induction false} RunKeeps(s: System, es: seq<Event>, cfg: Config)
    requires Sane(cfg) && Good(s, cfg) && Runs(s, es, cfg)
    ensures Good(Exec(s, es, cfg), cfg)
    decreases |es|
  {
    if es != [] {
      StepKeeps(s, es[0], cfg);
      RunKeeps(Step(s, es[0], cfg), es[1..], cfg);
    }
  }

  /** All states that a session can get into. */
  ghost predicate Reachable(s: System, cfg: Config)
    requires Sane(cfg)
  {
    exists es :: Runs(START, es, cfg) && Exec(START, es, cfg) == s
  }

  lemma ReachableGood(s: System, cfg: Config)
    requires Sane(cfg) && Reachable(s, cfg)
    ensures Good(s, cfg)
  {
    var es :| Runs(START, es, cfg) && Exec(START, es, cfg) == s;
    StartGood(cfg);
    RunKeeps(START, es, cfg);
  }

  lemma {:induction false} RunsJoin(s: System, es: seq<Event>, fs: seq<Event>, cfg: Config)
    requires Sane(cfg) && Runs(s, es, cfg) && Runs(Exec(s, es, cfg), fs, cfg)
    ensures Runs(s, es + fs, cfg) && Exec(s, es + fs, cfg) == Exec(Exec(s, es, cfg), fs, cfg)
    decreases |es|
  {
    if es == [] {
      assert es + fs == fs;
    } else {
      RunsJoin(Step(s, es[0], cfg), es[1..], fs, cfg);
      assert (es + fs)[1..] == es[1..] + fs;
    }
  }

  lemma ReachableOn(s: System, es: seq<Event>, cfg: Config)
    requires Sane(cfg) && Reachable(s, cfg) && Runs(s, es, cfg)
    ensures Reachable(Exec(s, es, cfg), cfg)
  {
    var before :| Runs(START, before, cfg) && Exec(START, before, cfg) == s;
    RunsJoin(START, before, es, cfg);
    assert Runs(START, before + es, cfg);
  }

  lemma ReachableNext(s: System, e: Event, cfg: Config)
    requires Sane(cfg) && Reachable(s, cfg) && Can(s, e)
    ensures Reachable(Step(s, e, cfg), cfg)
  {
    assert Exec(s, [e], cfg) == Step(s, e, cfg);
    ReachableOn(s, [e], cfg);
  }

  lemma StartReachable(cfg: Config)
    requires Sane(cfg)
    ensures Reachable(START, cfg)
  {
    assert Runs(START, [], cfg) && Exec(START, [], cfg) == START;
  }
}
