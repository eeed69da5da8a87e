/** A run of a session that ends in the loss of a chunk. */
module SessionLoss {
  import opened Bytes
  import opened Wire
  import opened StreamIds
  import opened StreamModel
  import opened StreamMachine
  import opened SessionSystem
  import opened SessionInvariant
  import DeviceEngine

  const OPEN := Message(Open, 1, 0, [0])
  const OKAY := Empty(Okay, 100, 1)
  const DATA := Message(Write, 100, 1, [1])
  const ENTRY := DeviceEngine.DevStream(1, [], true)

  /** A stream is opened, the device accepts it and sends one payload, the owner takes the stream, and
      the writer stops. */
  function LossEvent(k: nat): Event {
    if k == 0 then OpenCall(1, [])
    else if k == 1 then WriterMoves
    else if k == 2 then DeviceHandles(100, DeviceEngine.Choice(true, [[1]], false))
    else if k == 3 || k == 4 then ReaderDispatches
    else if k == 5 then OwnerCall(1, Wake)
    else WriterStops
  }

  function LossLog(k: nat): Log {
    var asked := FRESH_LOG.(posts := [OPEN]);
    if k < 3 then asked
    else
      var accepted := asked.(deviceId := 100, produced := [[1]], emitted := [[1]]);
      if k < 5 then accepted else accepted.(delivered := [[1]])
  }

  function LossRec(k: nat): Rec {
    var v := StreamView(if k > 3 then 100 else 0, false, if k > 3 then 1 else 0, k == 4 || k == 5, true, true,
                        if k > 4 then [[1]] else []);
    Rec(v, true, if k > 5 then Idle else Opening, if k > 5 then Opened else Pending, LossLog(k))
  }

  /** The session after `k` of the events. */
  function LossState(k: nat): System {
    if k == 0 then START
    else
      System(map[1 := LossRec(k)], if k == 1 then [OPEN] else [], if k == 2 then [OPEN] else [],
             if k == 3 then [OKAY, DATA] else if k == 4 then [DATA] else [],
             if k > 2 then map[100 := ENTRY] else map[], if k > 2 then 101 else 100, k < 7, true, 1)
  }

  lemma LossChunks(max: nat)
    requires max > 0
    ensures DeviceEngine.Chunked([[1]], max) == [[1]]
  {
    assert DeviceEngine.Pieces([1], max) == [[1]];
    assert DeviceEngine.NonEmpty([[1]]) == [[1]] + DeviceEngine.NonEmpty([]);
    assert DeviceEngine.Chunked([[1]], max) == [[1]] + DeviceEngine.Chunked([], max);
  }

  predicate Leads(k: nat, cfg: Config)
    requires Sane(cfg)
  {
    Can(LossState(k), LossEvent(k)) && Step(LossState(k), LossEvent(k), cfg) == LossState(k + 1)
  }

  lemma LossOpens(cfg: Config)
    requires Sane(cfg)
    ensures Leads(0, cfg)
  {
    assert Project(START, 1).devs == map[];
    assert [] + [0] == OPEN.payload && [] + [OPEN] == [OPEN];
    assert OpenStream(1, [], true) == (LossRec(1), [OPEN]);
  }

  lemma LossAccepts(cfg: Config)
    requires Sane(cfg)
    ensures Leads(2, cfg)
  {
    AcceptOne(cfg.deviceMax);
    LossChunks(cfg.deviceMax);
    assert LogDevice(LossLog(2), false, OPEN, 100, LossEvent(2).choice, [OKAY, DATA], cfg.deviceMax) == LossLog(3);
    assert [] + [OKAY, DATA] == [OKAY, DATA] && [OPEN][1..] == [];
  }

  lemma LossDelivers(cfg: Config)
    requires Sane(cfg)
    ensures Leads(4, cfg)
  {
    var payload: seq<Data> := [[1]];
    assert [] + payload == payload && [DATA][1..] == [];
    assert ReaderStep(Some(LossRec(4)), DATA, true) == (Some(LossRec(5)), [], false);
  }

  lemma LossWritten(cfg: Config)
    requires Sane(cfg)
    ensures Leads(1, cfg)
  {
  }

  lemma LossAnswered(cfg: Config)
    requires Sane(cfg)
    ensures Leads(3, cfg)
  {
    assert [OKAY, DATA][1..] == [DATA];
    assert ReaderStep(Some(LossRec(3)), OKAY, true) == (Some(LossRec(4)), [], false);
  }

  lemma LossWakes(cfg: Config)
    requires Sane(cfg)
    ensures Leads(5, cfg)
  {
    assert OwnerStep(1, LossRec(5), Wake, true, cfg.maxPayload) == (LossRec(6), []);
  }

  lemma LossStep(k: nat, cfg: Config)
    requires Sane(cfg) && k < 7
    ensures Leads(k, cfg)
  {
    if k == 0 {
      LossOpens(cfg);
    } else if k == 2 {
      LossAccepts(cfg);
    } else if k == 4 {
      LossDelivers(cfg);
    } else if k == 1 {
      LossWritten(cfg);
    } else if k == 3 {
      LossAnswered(cfg);
    } else if k == 5 {
      LossWakes(cfg);
    }
  }

  lemma AcceptOne(max: nat)
    requires max > 0
    ensures var h := DeviceEngine.Handle(map[], OPEN, 100, DeviceEngine.Choice(true, [[1]], false), max);
            h.streams == map[100 := ENTRY] && h.replies == [OKAY, DATA]
    ensures Writes([OKAY, DATA]) == [[1]]
  {
    LossChunks(max);
    var payload: seq<Data> := [[1]];
    assert payload[1..] == [];
    var none: DeviceEngine.Streams := map[];
    var added: DeviceEngine.Streams := map[100 := DeviceEngine.DevStream(1, payload, false)];
    var h := DeviceEngine.Pump(added, 100, false);
    assert h.streams == map[100 := ENTRY] && h.replies == [DATA];
    assert none[100 := added[100]] == added;
    assert [OKAY, DATA][1..] == [DATA] && [DATA][1..] == [];
    assert Writes([DATA]) == [[1]] + Writes([]) && Writes([OKAY, DATA]) == [] + Writes([DATA]);
    assert [OKAY] + [DATA] == [OKAY, DATA];
  }

  lemma {:induction false} LossReached(k: nat, cfg: Config)
    requires Sane(cfg) && k <= 7
    ensures Reachable(LossState(k), cfg)
  {
    if k == 0 {
      StartReachable(cfg);
    } else {
      LossReached(k - 1, cfg);
      LossStep(k - 1, cfg);
      ReachableNext(LossState(k - 1), LossEvent(k - 1), cfg);
    }
  }

  /** For every configuration a session can get to where `recv` takes a payload off an open stream and
      does not return it. */
  lemma LossIsReachable(cfg: Config)
    requires Sane(cfg)
    ensures exists s ::
              && Reachable(s, cfg) && Can(s, OwnerCall(1, Recv)) && s.streams[1].view.queue != []
              && Usable(s.streams[1].view) && !s.writerUp
              && var r, r' := s.streams[1], Step(s, OwnerCall(1, Recv), cfg).streams[1];
                 r'.log.taken == r.log.taken + [r.view.queue[0]] && r'.log.handed == r.log.handed
  {
    LossReached(7, cfg);
    var s := LossState(7);
    assert s.streams[1] == LossRec(7);
    assert Can(s, OwnerCall(1, Recv));
    assert Step(s, OwnerCall(1, Recv), cfg).streams[1] == Receive(1, LossRec(7), false).0;
    assert Reachable(s, cfg);
  }
}
