/** How a device takes a stream of requests: in whatever chunks it comes, one request after the
    other, and a push as exactly one write. */
module SyncDeviceTheorems {
  import opened Bytes
  import opened SyncCodec
  import opened SyncDevice

  lemma PrefixKept(b: Data, more: Data, n: nat)
    requires n <= |b|
    ensures (b + more)[..n] == b[..n] && (b + more)[n..] == b[n..] + more
    ensures n >= 8 ==> U32At(b + more, 4) == U32At(b, 4) && (b + more)[8..n] == b[8..n]
  {
    if n >= 8 {
      assert (b + more)[4..8] == b[4..8];
    }
  }

  lemma ReceivingExtends<F>(fs: FileSystem<F>, d: Device<F>, more: Data)
    requires Step(fs, d).progressed && d.state.Receiving?
    ensures var t := Step(fs, d); Step(fs, Extended(d, more)) == Turn(Extended(t.device, more), t.replies, true)
  {
    var b := d.buffer;
    PrefixKept(b, more, 4);
    PrefixKept(b, more, 8);
    if b[..4] != IdBytes(DONE) {
      PrefixKept(b, more, 8 + U32At(b, 4));
    }
  }

  lemma IdleExtends<F>(fs: FileSystem<F>, d: Device<F>, more: Data)
    requires Step(fs, d).progressed && d.state.Idle?
    ensures var t := Step(fs, d); Step(fs, Extended(d, more)) == Turn(Extended(t.device, more), t.replies, true)
  {
    var b := d.buffer;
    PrefixKept(b, more, 4);
    PrefixKept(b, more, 8);
    PrefixKept(b, more, 8 + U32At(b, 4));
  }

  lemma StepExtends<F>(fs: FileSystem<F>, d: Device<F>, more: Data)
    requires Step(fs, d).progressed
    ensures var t := Step(fs, d); Step(fs, Extended(d, more)) == Turn(Extended(t.device, more), t.replies, true)
  {
    match d.state {
      case Receiving(_, _, _) => ReceivingExtends(fs, d, more);
      case Idle => IdleExtends(fs, d, more);
      case AwaitRecvSetup(_) => PrefixKept(d.buffer, more, 8);
      case AwaitSendSetup(_) => PrefixKept(d.buffer, more, 12);
    }
  }

  /** Data that arrives after the machine settled is as good as data that arrived before. */
  lemma {:induction false} SettleExtends<F>(fs: FileSystem<F>, d: Device<F>, more: Data)
    ensures var s := Settle(fs, d);
            Settle(fs, Extended(d, more)) == After(s.replies, Settle(fs, Extended(s.device, more)))
    decreases |d.buffer|
  {
    var t, s := Step(fs, d), Settle(fs, d);
    if t.progressed {
      StepConsumes(fs, d);
      StepExtends(fs, d, more);
      SettleExtends(fs, t.device, more);
      SettleStep(fs, d, []);
      SettleStep(fs, Extended(d, more), []);
      var later := Settle(fs, Extended(s.device, more)).replies;
      RepliesInOrder(t.replies, Settle(fs, t.device).replies, later);
    } else {
      StuckExtends(fs, d, more);
    }
  }

  lemma RepliesInOrder(a: seq<Data>, b: seq<Data>, c: seq<Data>)
    ensures a + (b + c) == a + b + c && [] + a == a
  {
  }

  lemma StuckExtends<F>(fs: FileSystem<F>, d: Device<F>, more: Data)
    requires !Step(fs, d).progressed
    ensures var s := Settle(fs, d);
            Settle(fs, Extended(d, more)) == After(s.replies, Settle(fs, Extended(s.device, more)))
  {
    var e := Extended(d, more);
    var later := Settle(fs, Extended(Step(fs, d).device, more)).replies;
    assert [] + later == later;
    if Step(fs, d).device != d {
      assert e.buffer[..4] == d.buffer[..4];
    }
  }

  ghost predicate Quiet<F>(fs: FileSystem<F>, d: Device<F>) {
    Settle(fs, d) == Settled(d, [])
  }

  lemma {:induction false} SettledIsQuiet<F>(fs: FileSystem<F>, d: Device<F>)
    ensures Quiet(fs, Settle(fs, d).device)
    decreases |d.buffer|
  {
    var t := Step(fs, d);
    if t.progressed {
      StepConsumes(fs, d);
      SettledIsQuiet(fs, t.device);
    }
  }

  /** The handler's replies and final state over several chunks. */
  function Feed<F>(fs: FileSystem<F>, d: Device<F>, chunks: seq<Data>): Settled<F>
    decreases |chunks|
  {
    if chunks == [] then Settled(d, [])
    else
      var s := Settle(fs, Extended(d, chunks[0]));
      After(s.replies, Feed(fs, s.device, chunks[1..]))
  }

  /** The chunks do not matter: the device answers as if all had come at once. */
  lemma {:induction false} FeedIsWhole<F>(fs: FileSystem<F>, d: Device<F>, chunks: seq<Data>)
    requires Quiet(fs, d)
    ensures Feed(fs, d, chunks) == Settle(fs, Extended(d, Flatten(chunks)))
    decreases |chunks|
  {
    if chunks == [] {
      assert d.buffer + [] == d.buffer;
    } else {
      var first := Extended(d, chunks[0]);
      SettledIsQuiet(fs, first);
      FeedIsWhole(fs, Settle(fs, first).device, chunks[1..]);
      SettleExtends(fs, first, Flatten(chunks[1..]));
      assert d.buffer + chunks[0] + Flatten(chunks[1..]) == d.buffer + Flatten(chunks);
    }
  }

  // One message at a time.

  lemma Settles<F>(fs: FileSystem<F>, d: Device<F>, next: Device<F>, replies: seq<Data>)
    requires Step(fs, d) == Turn(next, replies, true)
    ensures Settle(fs, d) == After(replies, Settle(fs, next))
  {
  }

  lemma AcceptRequest<F>(fs: FileSystem<F>, f: F, id: Id, path: Data, rest: Data, done: bool)
    requires id != QUIT && |path| <= U32_MAX
    ensures var a := AnswerRequest(fs, f, IdBytes(id), path);
            Settle(fs, Device(f, Request(id, path) + rest, Idle, done))
            == After(a.replies, Settle(fs, Device(f, rest, a.state, done)))
  {
    var d := Device(f, Request(id, path) + rest, Idle, done);
    var b := d.buffer;
    assert b == Word(id, |path|) + (path + rest);
    WordRoundTrip(id, |path|, path + rest);
    assert b[8..8 + |path|] == path && b[8 + |path|..] == rest;
    if IdBytes(id) == IdBytes(QUIT) {
      IdsDiffer(id, QUIT);
    }
    var a := AnswerRequest(fs, f, IdBytes(id), path);
    Settles(fs, d, Device(f, rest, a.state, done), a.replies);
  }

  lemma AcceptSendSetup<F>(fs: FileSystem<F>, f: F, path: Data, mode: u32, rest: Data, done: bool)
    ensures Settle(fs, Device(f, Word(SND2, mode) + Le32(0) + rest, AwaitSendSetup(path), done))
            == After([], Settle(fs, Device(f, rest, Receiving(path, mode, []), done)))
  {
    var d := Device(f, Word(SND2, mode) + Le32(0) + rest, AwaitSendSetup(path), done);
    assert d.buffer == Word(SND2, mode) + (Le32(0) + rest);
    WordRoundTrip(SND2, mode, Le32(0) + rest);
    assert d.buffer[12..] == rest;
    Settles(fs, d, Device(f, rest, Receiving(path, mode, []), done), []);
  }

  lemma AcceptRecvSetup<F>(fs: FileSystem<F>, f: F, path: Data, rest: Data, done: bool)
    ensures Settle(fs, Device(f, Word(RCV2, 0) + rest, AwaitRecvSetup(path), done))
            == After(RecvReply(fs, f, path), Settle(fs, Device(f, rest, Idle, done)))
  {
    WordRoundTrip(RCV2, 0, rest);
    var d := Device(f, Word(RCV2, 0) + rest, AwaitRecvSetup(path), done);
    Settles(fs, d, Device(f, rest, Idle, done), RecvReply(fs, f, path));
  }

  lemma AcceptData<F>(fs: FileSystem<F>, f: F, path: Data, mode: u32, data: Data, piece: Data, rest: Data, done: bool)
    requires |piece| <= U32_MAX
    ensures Settle(fs, Device(f, Word(DATA, |piece|) + piece + rest, Receiving(path, mode, data), done))
            == After([], Settle(fs, Device(f, rest, Receiving(path, mode, data + piece), done)))
  {
    var d := Device(f, Word(DATA, |piece|) + piece + rest, Receiving(path, mode, data), done);
    var b := d.buffer;
    assert b == Word(DATA, |piece|) + (piece + rest);
    WordRoundTrip(DATA, |piece|, piece + rest);
    assert b[8..8 + |piece|] == piece && b[8 + |piece|..] == rest;
    if IdBytes(DATA) == IdBytes(DONE) {
      IdsDiffer(DATA, DONE);
    }
    Settles(fs, d, Device(f, rest, Receiving(path, mode, data + piece), done), []);
  }

  /** The outcome of the one write a push makes. */
  datatype Written<F> = Written(fs: F, reply: Data)

  function WriteOnce<F>(fs: FileSystem<F>, f: F, path: Data, mode: u32, mtime: u32, data: Data): Written<F> {
    match fs.write(f, path, mode, mtime, data)
    case Ok(after) => Written(after, Word(OKAY, 0))
    case Err(message) => Written(f, Fail(message))
  }

  lemma AcceptDone<F>(fs: FileSystem<F>, f: F, path: Data, mode: u32, data: Data, mtime: u32, rest: Data, done: bool)
    ensures var w := WriteOnce(fs, f, path, mode, mtime, data);
            Settle(fs, Device(f, Word(DONE, mtime) + rest, Receiving(path, mode, data), done))
            == After([w.reply], Settle(fs, Device(w.fs, rest, Idle, done)))
  {
    WordRoundTrip(DONE, mtime, rest);
    var w := WriteOnce(fs, f, path, mode, mtime, data);
    var d := Device(f, Word(DONE, mtime) + rest, Receiving(path, mode, data), done);
    Settles(fs, d, Device(w.fs, rest, Idle, done), [w.reply]);
  }

  predicate Sendable(pieces: seq<Data>) {
    forall k :: 0 <= k < |pieces| ==> |pieces[k]| <= U32_MAX
  }

  lemma {:induction false} AcceptPieces<F>(fs: FileSystem<F>, f: F, path: Data, mode: u32, data: Data,
                                           pieces: seq<Data>, rest: Data, done: bool)
    requires Sendable(pieces)
    ensures Settle(fs, Device(f, Flatten(DataMessages(pieces)) + rest, Receiving(path, mode, data), done))
            == Settle(fs, Device(f, rest, Receiving(path, mode, data + Flatten(pieces)), done))
    decreases |pieces|
  {
    if pieces == [] {
      assert Flatten(DataMessages(pieces)) + rest == rest && data + [] == data;
    } else {
      var more := Flatten(DataMessages(pieces[1..])) + rest;
      PiecesText(pieces, rest);
      AcceptData(fs, f, path, mode, data, pieces[0], more, done);
      AcceptPieces(fs, f, path, mode, data + pieces[0], pieces[1..], rest, done);
      assert data + pieces[0] + Flatten(pieces[1..]) == data + Flatten(pieces);
      AfterNone(Settle(fs, Device(f, more, Receiving(path, mode, data + pieces[0]), done)));
    }
  }

  lemma FirstMessage(pieces: seq<Data>)
    requires pieces != [] && Sendable(pieces)
    ensures DataMessages(pieces) == [Word(DATA, |pieces[0]|) + pieces[0]] + DataMessages(pieces[1..])
  {
    assert |pieces[0]| % 0x1_0000_0000 == |pieces[0]|;
  }

  lemma PiecesText(pieces: seq<Data>, rest: Data)
    requires pieces != [] && Sendable(pieces)
    ensures Flatten(DataMessages(pieces)) + rest
            == Word(DATA, |pieces[0]|) + pieces[0] + (Flatten(DataMessages(pieces[1..])) + rest)
  {
    FirstMessage(pieces);
    FlattenFirst(Word(DATA, |pieces[0]|) + pieces[0], DataMessages(pieces[1..]), rest);
  }

  lemma AfterNone<F>(s: Settled<F>)
    ensures After([], s) == s
  {
    assert [] + s.replies == s.replies;
  }

  // Pushing.

  function ModeArgument(path: Data, mode: u32): Data {
    path + [COMMA] + Decimal(mode)
  }

  predicate Pushable(v2: bool, path: Data, mode: u32) {
    (if v2 then |path| else |ModeArgument(path, mode)|) <= U32_MAX
  }

  function PushHead(v2: bool, path: Data, mode: u32): Data
    requires Pushable(v2, path, mode)
  {
    if v2 then Request(SND2, path) + (Word(SND2, mode) + Le32(0)) else Request(SEND, ModeArgument(path, mode))
  }

  function PushBytes(v2: bool, path: Data, mode: u32, mtime: u32, pieces: seq<Data>): Data
    requires Pushable(v2, path, mode)
  {
    PushHead(v2, path, mode) + Flatten(DataMessages(pieces)) + Word(DONE, mtime)
  }

  lemma Different(a: Id, b: Id)
    requires a != b
    ensures IdBytes(a) != IdBytes(b)
  {
    if IdBytes(a) == IdBytes(b) {
      IdsDiffer(a, b);
    }
  }

  /** The answer to the requests that other messages follow. */
  lemma AnswerSend<F>(fs: FileSystem<F>, f: F, id: Id, path: Data)
    requires id == SEND || id == SND2 || id == RCV2
    ensures var a := AnswerRequest(fs, f, IdBytes(id), path);
            && a.replies == []
            && (id == SEND ==> a.state == Receiving(TargetOf(path, |path|).file, TargetOf(path, |path|).mode, []))
            && (id == SND2 ==> a.state == AwaitSendSetup(path))
            && (id == RCV2 ==> a.state == AwaitRecvSetup(path))
  {
    Different(id, STAT);
    Different(id, STA2);
    Different(id, LST2);
    Different(id, LIST);
    Different(id, LIS2);
    Different(id, RECV);
    if id != RCV2 {
      Different(id, RCV2);
    }
    if id != SEND {
      Different(id, SEND);
    }
  }

  lemma AcceptPushHead<F>(fs: FileSystem<F>, f: F, v2: bool, path: Data, mode: u32, rest: Data, done: bool)
    requires Pushable(v2, path, mode)
    ensures Settle(fs, Device(f, PushHead(v2, path, mode) + rest, Idle, done))
            == Settle(fs, Device(f, rest, Receiving(path, mode, []), done))
  {
    if v2 {
      AcceptSendV2(fs, f, path, mode, rest, done);
    } else {
      AnswerSend(fs, f, SEND, ModeArgument(path, mode));
      AcceptRequest(fs, f, SEND, ModeArgument(path, mode), rest, done);
      TargetRoundTrip(path, mode);
      AfterNone(Settle(fs, Device(f, rest, Receiving(path, mode, []), done)));
    }
  }

  lemma AcceptSendV2<F>(fs: FileSystem<F>, f: F, path: Data, mode: u32, rest: Data, done: bool)
    requires |path| <= U32_MAX
    ensures Settle(fs, Device(f, Request(SND2, path) + (Word(SND2, mode) + Le32(0)) + rest, Idle, done))
            == Settle(fs, Device(f, rest, Receiving(path, mode, []), done))
  {
    var setup := Word(SND2, mode) + Le32(0);
    assert Request(SND2, path) + setup + rest == Request(SND2, path) + (setup + rest);
    AnswerSend(fs, f, SND2, path);
    AcceptRequest(fs, f, SND2, path, setup + rest, done);
    AcceptSendSetup(fs, f, path, mode, rest, done);
    AfterNone(Settle(fs, Device(f, rest, Receiving(path, mode, []), done)));
    AfterNone(Settle(fs, Device(f, setup + rest, AwaitSendSetup(path), done)));
  }

  /** A push is one write, of that path, mode, time and content, and leaves the device as idle as
      before, ready for `rest`. */
  lemma PushIsOneWrite<F>(fs: FileSystem<F>, f: F, v2: bool, path: Data, mode: u32, mtime: u32, pieces: seq<Data>,
                          rest: Data, done: bool)
    requires Pushable(v2, path, mode) && Sendable(pieces)
    ensures var w := WriteOnce(fs, f, path, mode, mtime, Flatten(pieces));
            Settle(fs, Device(f, PushBytes(v2, path, mode, mtime, pieces) + rest, Idle, done))
            == After([w.reply], Settle(fs, Device(w.fs, rest, Idle, done)))
  {
    var head, body, end := PushHead(v2, path, mode), Flatten(DataMessages(pieces)), Word(DONE, mtime);
    PushText(head, body, end, rest);
    AcceptPushHead(fs, f, v2, path, mode, body + (end + rest), done);
    AcceptPieces(fs, f, path, mode, [], pieces, end + rest, done);
    assert [] + Flatten(pieces) == Flatten(pieces);
    AcceptDone(fs, f, path, mode, Flatten(pieces), mtime, rest, done);
  }

  lemma PushText(head: Data, body: Data, end: Data, rest: Data)
    ensures head + body + end + rest == head + (body + (end + rest))
  {
  }

  function Ready<F>(f: F): Device<F> {
    Device(f, [], Idle, false)
  }

  lemma ReadyIsQuiet<F>(fs: FileSystem<F>, f: F)
    ensures Quiet(fs, Ready(f))
  {
  }

  /** In whatever chunks the bytes of a push arrive, the file is written once and the device ends idle
      with an empty buffer, having sent one status. */
  lemma PushReachesFile<F>(fs: FileSystem<F>, f: F, v2: bool, path: Data, mode: u32, mtime: u32, pieces: seq<Data>,
                           chunks: seq<Data>)
    requires Pushable(v2, path, mode) && Sendable(pieces)
    requires Flatten(chunks) == PushBytes(v2, path, mode, mtime, pieces)
    ensures var w := WriteOnce(fs, f, path, mode, mtime, Flatten(pieces));
            Feed(fs, Ready(f), chunks) == Settled(Ready(w.fs), [w.reply])
  {
    var w := WriteOnce(fs, f, path, mode, mtime, Flatten(pieces));
    var bytes := PushBytes(v2, path, mode, mtime, pieces);
    ReadyIsQuiet(fs, f);
    FeedIsWhole(fs, Ready(f), chunks);
    assert [] + bytes == bytes && bytes + [] == bytes;
    PushIsOneWrite(fs, f, v2, path, mode, mtime, pieces, [], false);
    ReadyIsQuiet(fs, w.fs);
    assert [w.reply] + [] == [w.reply];
  }
}
