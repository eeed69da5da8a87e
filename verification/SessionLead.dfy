/** No wait depends on the other streams: the queues are first-in first-out, so what is ahead of a
    stream's request, or of its answer, only gets less, whatever other owners send meanwhile. */
module SessionLead {
  import opened Bytes
  import opened Wire
  import opened StreamModel
  import opened StreamMachine
  import opened StreamInvariant
  import opened SessionSystem
  import opened SessionInvariant
  import opened SessionProjection
  import opened SessionProgress
  import opened SessionLiveness
  import DeviceEngine

  predicate Request(m: Message, i: u32) {
    m.arg0 == i && (m.command.Open? || m.command.Write?)
  }

  predicate Answer(m: Message, i: u32) {
    m.arg1 == i && (m.command.Okay? || m.command.Close?)
  }

  /** Where the first request, or answer, of stream `i` is in a queue; its length if there is none. */
  function FirstRequest(ms: seq<Message>, i: u32): (at: nat)
    ensures at <= |ms|
    ensures forall k :: 0 <= k < at ==> !Request(ms[k], i)
    ensures at < |ms| ==> Request(ms[at], i)
  {
    if ms == [] || Request(ms[0], i) then 0 else 1 + FirstRequest(ms[1..], i)
  }

  function FirstAnswer(ms: seq<Message>, i: u32): (at: nat)
    ensures at <= |ms|
    ensures forall k :: 0 <= k < at ==> !Answer(ms[k], i)
    ensures at < |ms| ==> Answer(ms[at], i)
  {
    if ms == [] || Answer(ms[0], i) then 0 else 1 + FirstAnswer(ms[1..], i)
  }

  function Outgoing(s: System): seq<Message> {
    s.toDevice + s.outbox
  }

  predicate Answering(s: System, i: u32) {
    FirstAnswer(s.toHost, i) < |s.toHost|
  }

  /** What is ahead of the end of a wait: of the answer, if it is on its way; or of the request, each
      message ahead of it costing a turn of the device and two of the reader for the replies. */
  function Lead(s: System, i: u32): nat {
    if Answering(s, i) then 1 + FirstAnswer(s.toHost, i)
    else
      var n := 1 + FirstRequest(Outgoing(s), i);
      3 * n + |s.toHost| + if n > |s.toDevice| then n - |s.toDevice| else 0
  }

  /** Stream `i` waits and has not been answered. */
  predicate Waits(s: System, i: u32) {
    i in s.streams && Blocked(s.streams[i]) && !AnsweredOwner(s.streams[i])
  }

  /** The turn of whoever has stream `i`'s request or answer, or something ahead of it. */
  predicate Useful(s: System, e: Event, i: u32) {
    match e
    case ReaderDispatches => true
    case DeviceHandles(_, _) => !Answering(s, i)
    case WriterMoves => !Answering(s, i) && FirstRequest(Outgoing(s), i) >= |s.toDevice|
    case _ => false
  }

  lemma {:induction false} RequestAppended(a: seq<Message>, b: seq<Message>, i: u32)
    ensures FirstRequest(a + b, i) == if FirstRequest(a, i) < |a| then FirstRequest(a, i) else |a| + FirstRequest(b, i)
    decreases |a|
  {
    if a == [] {
      assert a + b == b;
    } else {
      assert (a + b)[0] == a[0] && (a + b)[1..] == a[1..] + b;
      RequestAppended(a[1..], b, i);
    }
  }

  lemma {:induction false} AnswerAppended(a: seq<Message>, b: seq<Message>, i: u32)
    ensures FirstAnswer(a + b, i) == if FirstAnswer(a, i) < |a| then FirstAnswer(a, i) else |a| + FirstAnswer(b, i)
    decreases |a|
  {
    if a == [] {
      assert a + b == b;
    } else {
      assert (a + b)[0] == a[0] && (a + b)[1..] == a[1..] + b;
      AnswerAppended(a[1..], b, i);
    }
  }

  /** The messages of a stream at the head of a queue. */
  lemma FromHead(ms: seq<Message>, i: u32, c: Command)
    requires ms != []
    ensures Count(From(ms, i), c) ==
            (if ms[0].arg0 == i && ms[0].command == c then 1 else 0) + Count(From(ms[1..], i), c)
  {
    if ms[0].arg0 == i {
      assert From(ms, i) == [ms[0]] + From(ms[1..], i);
      assert From(ms, i)[1..] == From(ms[1..], i);
    } else {
      assert From(ms, i) == From(ms[1..], i);
    }
  }

  lemma ToHead(ms: seq<Message>, i: u32, c: Command)
    requires ms != []
    ensures Count(To(ms, i), c) ==
            (if ms[0].arg1 == i && ms[0].command == c then 1 else 0) + Count(To(ms[1..], i), c)
  {
    if ms[0].arg1 == i {
      assert To(ms, i) == [ms[0]] + To(ms[1..], i);
      assert To(ms, i)[1..] == To(ms[1..], i);
    } else {
      assert To(ms, i) == To(ms[1..], i);
    }
  }

  lemma {:induction false} RequestSeen(ms: seq<Message>, i: u32)
    ensures Requests(From(ms, i)) > 0 ==> FirstRequest(ms, i) < |ms|
    decreases |ms|
  {
    if ms != [] {
      RequestSeen(ms[1..], i);
      FromHead(ms, i, Open);
      FromHead(ms, i, Write);
    }
  }

  lemma {:induction false} AnswerSeen(ms: seq<Message>, i: u32)
    ensures FirstAnswer(ms, i) < |ms| <==> Count(To(ms, i), Okay) + Count(To(ms, i), Close) > 0
    decreases |ms|
  {
    if ms != [] {
      AnswerSeen(ms[1..], i);
      ToHead(ms, i, Okay);
      ToHead(ms, i, Close);
    }
  }

  /** While a stream waits its answer is on its way, or its request is. */
  lemma RequestOrAnswer(s: System, cfg: Config, i: u32)
    requires Sane(cfg) && Reachable(s, cfg) && Up(s) && Waits(s, i)
    ensures Answering(s, i) || FirstRequest(Outgoing(s), i) < |Outgoing(s)|
  {
    OwnerState(s, cfg, i);
    WaitIsAnswered(s, cfg, i);
    FromAppend(s.toDevice, s.outbox, i);
    AnswerSeen(s.toHost, i);
    RequestSeen(Outgoing(s), i);
  }

  /** Somebody whose turn is useful can take it. */
  lemma UsefulTurnExists(s: System, cfg: Config, i: u32)
    requires Sane(cfg) && Reachable(s, cfg) && Up(s) && Waits(s, i) && s.nextDev < U32_MAX
    ensures exists e :: Can(s, e) && Useful(s, e, i)
  {
    RequestOrAnswer(s, cfg, i);
    var e := if Answering(s, i) then ReaderDispatches
             else if FirstRequest(Outgoing(s), i) < |s.toDevice| then
               DeviceHandles(s.nextDev, DeviceEngine.Choice(false, [], false))
             else WriterMoves;
    assert Can(s, e) && Useful(s, e, i);
  }

  predicate Stops(e: Event) {
    e.WriterStops? || e.ReaderStops?
  }

  /** How a step may change the lead: a useful one makes it less, no step makes it more. */
  predicate Led(s: System, e: Event, s': System, i: u32) {
    Waits(s', i) ==> Lead(s', i) + (if Useful(s, e, i) then 1 else 0) <= Lead(s, i)
  }

  /** What is posted comes after everything that is under way. */
  lemma BehindLed(s: System, s': System, posts: seq<Message>, i: u32)
    requires Answering(s, i) || FirstRequest(Outgoing(s), i) < |Outgoing(s)|
    requires s'.outbox == s.outbox + posts && s'.toDevice == s.toDevice && s'.toHost == s.toHost
    ensures Lead(s', i) == Lead(s, i)
  {
    assert Outgoing(s') == Outgoing(s) + posts;
    RequestAppended(Outgoing(s), posts, i);
  }

  lemma PostsLed(s: System, e: Event, cfg: Config, i: u32)
    requires Sane(cfg) && Reachable(s, cfg) && Up(s) && Waits(s, i) && Can(s, e) && (e.OpenCall? || e.OwnerCall?)
    ensures Led(s, e, Step(s, e, cfg), i)
  {
    var s' := Step(s, e, cfg);
    RequestOrAnswer(s, cfg, i);
    BehindLed(s, s', s'.outbox[|s.outbox|..], i);
  }

  lemma WriterLed(s: System, cfg: Config, i: u32)
    requires Sane(cfg) && Can(s, WriterMoves)
    ensures Led(s, WriterMoves, Step(s, WriterMoves, cfg), i)
  {
    var s' := Step(s, WriterMoves, cfg);
    assert s.outbox == [s.outbox[0]] + s.outbox[1..];
    assert Outgoing(s') == Outgoing(s);
  }

  lemma ReaderLed(s: System, cfg: Config, i: u32)
    requires Sane(cfg) && Reachable(s, cfg) && Up(s) && Waits(s, i) && Can(s, ReaderDispatches)
    ensures Led(s, ReaderDispatches, Step(s, ReaderDispatches, cfg), i)
  {
    var s' := Step(s, ReaderDispatches, cfg);
    RequestOrAnswer(s, cfg, i);
    var posts := s'.outbox[|s.outbox|..];
    assert Outgoing(s') == Outgoing(s) + posts;
    RequestAppended(Outgoing(s), posts, i);
    if Answer(s.toHost[0], i) {
      OwnerState(s, cfg, i);
      AnswerEndsWait(s, cfg, i);
    }
  }

  /** An answer that is dispatched ends the wait. */
  lemma AnswerEndsWait(s: System, cfg: Config, i: u32)
    requires Sane(cfg) && Can(s, ReaderDispatches) && Waits(s, i) && OwnerOk(s.streams[i]) && Answer(s.toHost[0], i)
    ensures !Waits(Step(s, ReaderDispatches, cfg), i)
  {
    DispatchedToWaiting(s, cfg, i);
  }

  /** While a stream waits unanswered it has one request at most under way. */
  lemma OneRequest(s: System, cfg: Config, i: u32)
    requires Sane(cfg) && Reachable(s, cfg) && Up(s) && Waits(s, i)
    ensures Requests(From(Outgoing(s), i)) <= 1
    ensures Answering(s, i) || Requests(From(Outgoing(s), i)) == 1
  {
    OwnerState(s, cfg, i);
    ReachableGood(s, cfg);
    assert Inv(i, Project(s, i), cfg);
    FromAppend(s.toDevice, s.outbox, i);
    AnswerSeen(s.toHost, i);
  }

  /** When the device has taken the request its answer is on the way. */
  lemma AnswerFollows(s: System, e: Event, cfg: Config, i: u32)
    requires Sane(cfg) && Reachable(s, cfg) && Up(s) && Waits(s, i) && Can(s, e) && e.DeviceHandles?
    requires !Answering(s, i) && FirstRequest(Outgoing(s), i) == 0 && Waits(Step(s, e, cfg), i)
    ensures Answering(Step(s, e, cfg), i)
  {
    var s' := Step(s, e, cfg);
    ReachableNext(s, e, cfg);
    OneRequest(s, cfg, i);
    OneRequest(s', cfg, i);
    DeviceTakes(s, e, cfg);
    FromHead(Outgoing(s), i, Open);
    FromHead(Outgoing(s), i, Write);
  }

  lemma DeviceTakes(s: System, e: Event, cfg: Config)
    requires Sane(cfg) && Can(s, e) && e.DeviceHandles?
    ensures var s' := Step(s, e, cfg);
            var replies := DeviceEngine.Handle(s.devs, s.toDevice[0], e.newId, e.choice, cfg.deviceMax).replies;
            && Outgoing(s) == [s.toDevice[0]] + Outgoing(s') && Outgoing(s)[1..] == Outgoing(s')
            && s'.toHost == s.toHost + replies && |replies| <= 2
            && s'.toDevice == s.toDevice[1..] && s'.writerUp == s.writerUp && s'.readerUp == s.readerUp
  {
  }

  lemma DeviceLed(s: System, e: Event, cfg: Config, i: u32)
    requires Sane(cfg) && Reachable(s, cfg) && Up(s) && Waits(s, i) && Can(s, e) && e.DeviceHandles?
    ensures Led(s, e, Step(s, e, cfg), i)
  {
    var s' := Step(s, e, cfg);
    var replies := DeviceEngine.Handle(s.devs, s.toDevice[0], e.newId, e.choice, cfg.deviceMax).replies;
    DeviceTakes(s, e, cfg);
    AnswerAppended(s.toHost, replies, i);
    if Waits(s', i) && !Answering(s, i) {
      if FirstRequest(Outgoing(s), i) == 0 {
        AnswerFollows(s, e, cfg, i);
        AnsweringLed(s, s', i);
      } else {
        AheadLed(s, s', i);
      }
    }
  }

  /** The device took the request: the answer is among its two replies. */
  lemma AnsweringLed(s: System, s': System, i: u32)
    requires !Answering(s, i) && Answering(s', i) && |s'.toHost| <= |s.toHost| + 2
    ensures Lead(s', i) < Lead(s, i)
  {
  }

  /** The device took a message ahead of the request. */
  lemma AheadLed(s: System, s': System, i: u32)
    requires !Answering(s, i) && FirstRequest(Outgoing(s), i) > 0 && s.toDevice != []
    requires Outgoing(s)[1..] == Outgoing(s') && s'.toDevice == s.toDevice[1..] && |s'.toHost| <= |s.toHost| + 2
    ensures Lead(s', i) < Lead(s, i)
  {
    assert FirstRequest(Outgoing(s), i) == 1 + FirstRequest(Outgoing(s'), i);
  }

  lemma StepLed(s: System, e: Event, cfg: Config, i: u32)
    requires Sane(cfg) && Reachable(s, cfg) && Up(s) && Waits(s, i) && Can(s, e) && !Stops(e)
    ensures Up(Step(s, e, cfg)) && Led(s, e, Step(s, e, cfg), i)
  {
    match e {
      case OpenCall(_, _) => PostsLed(s, e, cfg, i);
      case OwnerCall(_, _) => PostsLed(s, e, cfg, i);
      case WriterMoves => WriterLed(s, cfg, i);
      case DeviceHandles(_, _) => DeviceLed(s, e, cfg, i);
      case ReaderDispatches =>
        ReaderLed(s, cfg, i);
        InternalKeepsUp(s, e, cfg);
    }
  }

  /** The useful turns of a run. */
  function UsefulTurns(s: System, es: seq<Event>, cfg: Config, i: u32): nat
    requires Sane(cfg) && Runs(s, es, cfg)
    decreases |es|
  {
    if es == [] then 0
    else (if Useful(s, es[0], i) then 1 else 0) + UsefulTurns(Step(s, es[0], cfg), es[1..], cfg, i)
  }

  predicate WaitsThroughout(s: System, es: seq<Event>, cfg: Config, i: u32)
    requires Sane(cfg) && Runs(s, es, cfg)
    decreases |es|
  {
    Waits(s, i) && (es == [] || WaitsThroughout(Step(s, es[0], cfg), es[1..], cfg, i))
  }

  /** A wait is answered within a bounded number of useful turns, fixed by what is in the queues when
      it is looked at, in every run in which the two tasks live: other streams may be opened, written
      and closed in it in any number. As long as the wait lasts a useful turn can be taken. */
  lemma {:induction false} WaitIsBounded(s: System, es: seq<Event>, cfg: Config, i: u32)
    requires Sane(cfg) && Reachable(s, cfg) && Up(s) && Runs(s, es, cfg) && WaitsThroughout(s, es, cfg, i)
    requires forall k :: 0 <= k < |es| ==> !Stops(es[k])
    ensures UsefulTurns(s, es, cfg, i) < Lead(s, i) <= 4 * (|s.toDevice| + |s.outbox|) + |s.toHost| + 4
    ensures Exec(s, es, cfg).nextDev < U32_MAX ==>
              exists e :: Can(Exec(s, es, cfg), e) && Useful(Exec(s, es, cfg), e, i)
    decreases |es|
  {
    if es == [] {
      if s.nextDev < U32_MAX {
        UsefulTurnExists(s, cfg, i);
      }
    } else {
      StepLed(s, es[0], cfg, i);
      ReachableNext(s, es[0], cfg);
      WaitIsBounded(Step(s, es[0], cfg), es[1..], cfg, i);
    }
  }
}
