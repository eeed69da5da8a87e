/** Whole `sync:` sessions of the client with the emulated device: every call reads exactly the reply
    to its own request. */
module SyncSession {
  import opened Bytes
  import opened Channel
  import opened SyncCodec
  import opened SyncDevice
  import opened SyncDeviceTheorems
  import opened SyncClient
  import DeviceEngine

  datatype Call =
    | StatCall(path: Data) | ListCall(path: Data) | PullCall(path: Data)
    | PushCall(path: Data, mode: u32, mtime: u32, pieces: seq<Data>)

  predicate Callable(ft: Features, c: Call) {
    match c
    case PushCall(path, mode, mtime, pieces) => Pushable(ft.sendrecvV2, path, mode) && Sendable(pieces)
    case _ => |c.path| <= U32_MAX
  }

  /** The bytes the client sends for a call. */
  function RequestBytes(ft: Features, c: Call): Data
    requires Callable(ft, c)
  {
    match c
    case StatCall(path) => Request(if ft.statV2 then STA2 else STAT, path)
    case ListCall(path) => Request(if ft.lsV2 then LIS2 else LIST, path)
    case PullCall(path) => PullBytes(ft.sendrecvV2, path)
    case PushCall(path, mode, mtime, pieces) => PushBytes(ft.sendrecvV2, path, mode, mtime, pieces)
  }

  datatype Served<F> = Served(fs: F, replies: seq<Data>)

  function FilesAt<F>(fs: FileSystem<F>, f: F, path: Data): seq<File> {
    var files := fs.list(f, path);
    if files.Some? then files.value else []
  }

  /** The device's reply to a call, and the file system after it. */
  function Serve<F>(fs: FileSystem<F>, f: F, ft: Features, c: Call): Served<F> {
    match c
    case StatCall(path) => Served(f, [StatReply(if ft.statV2 then STA2 else STAT, fs.stat(f, path))])
    case ListCall(path) => Served(f, ListReply(ft.lsV2, FilesAt(fs, f, path)))
    case PullCall(path) => Served(f, RecvReply(fs, f, path))
    case PushCall(path, mode, mtime, pieces) =>
      var w := WriteOnce(fs, f, path, mode, mtime, Flatten(pieces));
      Served(w.fs, [w.reply])
  }

  lemma AnswerNow<F>(fs: FileSystem<F>, f: F, id: Id, path: Data)
    ensures var a := AnswerRequest(fs, f, IdBytes(id), path);
            && (id == STAT || id == STA2 ==> a == Answer(Idle, [StatReply(id, fs.stat(f, path))]))
            && (id == LIST || id == LIS2 ==> a == Answer(Idle, ListReply(id == LIS2, FilesAt(fs, f, path))))
            && (id == RECV ==> a == Answer(Idle, RecvReply(fs, f, path)))
  {
    Different(STAT, STA2);
    if id == LIST || id == LIS2 || id == RECV {
      Different(id, STAT);
      Different(id, STA2);
      Different(id, LST2);
    }
    Different(LIST, LIS2);
    Different(RECV, LIST);
    Different(RECV, LIS2);
  }

  lemma PullSettles<F>(fs: FileSystem<F>, f: F, v2: bool, path: Data, rest: Data, done: bool)
    requires |path| <= U32_MAX
    ensures Settle(fs, Device(f, PullBytes(v2, path) + rest, Idle, done))
            == After(RecvReply(fs, f, path), Settle(fs, Device(f, rest, Idle, done)))
  {
    if v2 {
      assert PullBytes(v2, path) + rest == Request(RCV2, path) + (Word(RCV2, 0) + rest);
      AnswerSend(fs, f, RCV2, path);
      AcceptRequest(fs, f, RCV2, path, Word(RCV2, 0) + rest, done);
      AcceptRecvSetup(fs, f, path, rest, done);
      AfterNone(Settle(fs, Device(f, Word(RCV2, 0) + rest, AwaitRecvSetup(path), done)));
    } else {
      AnswerNow(fs, f, RECV, path);
      AcceptRequest(fs, f, RECV, path, rest, done);
    }
  }

  /** The device serves a call whose bytes are at the front of its buffer, and nothing else. */
  lemma CallSettles<F>(fs: FileSystem<F>, f: F, ft: Features, c: Call, rest: Data, done: bool)
    requires Callable(ft, c)
    ensures var served := Serve(fs, f, ft, c);
            Settle(fs, Device(f, RequestBytes(ft, c) + rest, Idle, done))
            == After(served.replies, Settle(fs, Device(served.fs, rest, Idle, done)))
  {
    match c {
      case StatCall(path) =>
        var id := if ft.statV2 then STA2 else STAT;
        AnswerNow(fs, f, id, path);
        AcceptRequest(fs, f, id, path, rest, done);
      case ListCall(path) =>
        var id := if ft.lsV2 then LIS2 else LIST;
        AnswerNow(fs, f, id, path);
        AcceptRequest(fs, f, id, path, rest, done);
      case PullCall(path) => PullSettles(fs, f, ft.sendrecvV2, path, rest, done);
      case PushCall(path, mode, mtime, pieces) =>
        PushIsOneWrite(fs, f, ft.sendrecvV2, path, mode, mtime, pieces, rest, done);
    }
  }

  // What the client makes of a reply.

  datatype Outcome =
    | GotStat(stat: Result<Stat, SyncError>) | GotList(entries: Result<seq<Entry>, SyncError>)
    | GotPull(pulled: Pulled) | GotPush(status: Result<(), SyncError>)

  datatype Received = Received(outcome: Outcome, rest: Data)

  /** What the client's method for a call returns, and what it leaves to be read. */
  function Receive(ft: Features, c: Call, s: Data, down: ChannelError): Received {
    match c
    case StatCall(path) => var r := TakeStat(ft.statV2, s, down); Received(GotStat(r.result), r.rest)
    case ListCall(path) => var r := TakeEntries(ft.lsV2, s, down, []); Received(GotList(r.result), r.rest)
    case PullCall(path) => var r := TakePull(s, down, []); Received(GotPull(r.pulled), r.rest)
    case PushCall(path, mode, mtime, pieces) => var r := TakeStatus(s, down); Received(GotPush(r.result), r.rest)
  }

  /** A file's status as it can be transmitted. */
  function Transmitted(v2: bool, s: Stat): Stat {
    if v2 then Stat(s.mode, s.size, s.mtime, Some(ErrorOf(s)), Some(DetailOf(s)))
    else Stat(s.mode, SizeV1(s.size), TimeV1(s.mtime), None, None)
  }

  function Listed(v2: bool, files: seq<File>): seq<Entry> {
    if files == [] then []
    else [EntryOf(Transmitted(v2, files[0].stat), files[0].name)] + Listed(v2, files[1..])
  }

  function FilePulled<F>(fs: FileSystem<F>, f: F, path: Data): Pulled {
    var data := fs.read(f, path);
    if data.Some? then Pulled(Chunks(data.value), None)
    else Pulled([], Some(RemoteFailure(fs.openFailed(path))))
  }

  function Expected<F>(fs: FileSystem<F>, f: F, ft: Features, c: Call): Outcome {
    match c
    case StatCall(path) =>
      var stat := fs.stat(f, path);
      var missing := if ft.statV2 then MISSING_STAT else EMPTY_STAT;
      GotStat(Ok(Transmitted(ft.statV2, if stat.Some? then stat.value else missing)))
    case ListCall(path) => GotList(Ok(Listed(ft.lsV2, FilesAt(fs, f, path))))
    case PullCall(path) => GotPull(FilePulled(fs, f, path))
    case PushCall(path, mode, mtime, pieces) =>
      var w := fs.write(f, path, mode, mtime, Flatten(pieces));
      GotPush(if w.Ok? then Ok(()) else Err(RemoteFailure(w.error)))
  }

  predicate Names(files: seq<File>) {
    forall k :: 0 <= k < |files| ==> |files[k].name| <= U32_MAX
  }

  /** The lengths in the reply fit their fields. */
  predicate ReplyFits<F>(fs: FileSystem<F>, f: F, c: Call) {
    match c
    case StatCall(path) => true
    case ListCall(path) => Names(FilesAt(fs, f, path))
    case PullCall(path) => fs.read(f, path).None? ==> |fs.openFailed(path)| <= U32_MAX
    case PushCall(path, mode, mtime, pieces) =>
      var w := fs.write(f, path, mode, mtime, Flatten(pieces));
      w.Err? ==> |w.error| <= U32_MAX
  }

  lemma TakeFront(a: Data, rest: Data, down: ChannelError)
    ensures Take(a + rest, |a|, down) == Reply(Ok(a), rest)
  {
    assert (a + rest)[..|a|] == a && (a + rest)[|a|..] == rest;
  }

  lemma TakeWord(v: u32, rest: Data, down: ChannelError)
    ensures TakeU32(Le32(v) + rest, down) == Reply(Ok(v), rest)
  {
    TakeFront(Le32(v), rest, down);
    Le32RoundTrip(v);
  }

  /** A failure is read whole exactly if its length fits its field. */
  lemma FailureAligned(message: Data, rest: Data, down: ChannelError)
    ensures (TakeFailure(Le32(|message| % 0x1_0000_0000) + message + rest, down)
             == Reply(Err(RemoteFailure(message)), rest)) <==> |message| <= U32_MAX
  {
    var len := |message| % 0x1_0000_0000;
    assert Le32(len) + message + rest == Le32(len) + (message + rest);
    TakeWord(len, message + rest, down);
    if |message| <= U32_MAX {
      TakeFront(message, rest, down);
    }
  }

  lemma StatusAligned(id: Id, tail: Data, rest: Data, down: ChannelError)
    ensures Take(IdBytes(id) + tail + rest, 4, down) == Reply(Ok(IdBytes(id)), tail + rest)
  {
    assert IdBytes(id) + tail + rest == IdBytes(id) + (tail + rest);
    TakeFront(IdBytes(id), tail + rest, down);
  }

  lemma OkayAligned(rest: Data, down: ChannelError)
    ensures TakeStatus(Word(OKAY, 0) + rest, down) == Reply(Ok(()), rest)
  {
    StatusAligned(OKAY, Le32(0), rest, down);
    TakeWord(0, rest, down);
  }

  lemma FailAligned(message: Data, rest: Data, down: ChannelError)
    requires |message| <= U32_MAX
    ensures TakeStatus(Fail(message) + rest, down) == Reply(Err(RemoteFailure(message)), rest)
    ensures TakeData(Fail(message) + rest, down) == Reply(Err(RemoteFailure(message)), rest)
  {
    var body := Le32(|message|) + message;
    assert Fail(message) + rest == IdBytes(FAIL) + body + rest;
    StatusAligned(FAIL, body, rest, down);
    Different(FAIL, OKAY);
    Different(FAIL, DATA);
    Different(FAIL, DONE);
    FailureAligned(message, rest, down);
  }

  lemma StatAligned(v2: bool, s: Stat, rest: Data, down: ChannelError)
    ensures TakeStat(v2, (if v2 then StatBytesV2(STA2, s) else StatBytesV1(STAT, s)) + rest, down)
            == Reply(Ok(Transmitted(v2, s)), rest)
  {
    if v2 {
      TakeFront(StatBytesV2(STA2, s), rest, down);
      StatV2RoundTrip(STA2, s, []);
      assert StatBytesV2(STA2, s) + [] == StatBytesV2(STA2, s);
    } else {
      TakeFront(StatBytesV1(STAT, s), rest, down);
      StatV1RoundTrip(STAT, s, []);
      assert StatBytesV1(STAT, s) + [] == StatBytesV1(STAT, s);
    }
  }

  function HeaderOf(v2: bool, f: File): (b: Data)
    requires |f.name| <= U32_MAX
    ensures |b| == HeaderLen(v2)
  {
    (if v2 then StatBytesV2(DNT2, f.stat) else StatBytesV1(DENT, f.stat)) + Le32(|f.name|)
  }

  lemma HeaderRead(v2: bool, f: File)
    requires |f.name| <= U32_MAX
    ensures var b := HeaderOf(v2, f);
            && b[..4] == IdBytes(if v2 then DNT2 else DENT)
            && (if v2 then StatV2(b) else StatV1(b)) == Transmitted(v2, f.stat)
            && U32At(b, HeaderLen(v2) - 4) == |f.name|
  {
    var b := HeaderOf(v2, f);
    Le32RoundTrip(|f.name|);
    assert b[HeaderLen(v2) - 4..HeaderLen(v2)] == Le32(|f.name|);
    if v2 {
      StatV2RoundTrip(DNT2, f.stat, Le32(|f.name|));
    } else {
      StatV1RoundTrip(DENT, f.stat, Le32(|f.name|));
    }
  }

  lemma AfterHeader(v2: bool, b: Data, tail: Data, down: ChannelError, entries: seq<Entry>)
    requires |b| == HeaderLen(v2) && b[..4] == IdBytes(if v2 then DNT2 else DENT)
    ensures var name := Take(tail, U32At(b, HeaderLen(v2) - 4), down);
            name.result.Ok? ==>
              TakeEntries(v2, b + tail, down, entries)
              == TakeEntries(v2, name.rest, down,
                             entries + [EntryOf(if v2 then StatV2(b) else StatV1(b), name.result.value)])
  {
    TakeFront(b, tail, down);
    var id := if v2 then DNT2 else DENT;
    Different(id, DONE);
    Different(id, FAIL);
  }

  lemma EntryText(v2: bool, f: File, rest: Data)
    requires |f.name| <= U32_MAX
    ensures EntryReply(v2, f) + rest == HeaderOf(v2, f) + (f.name + rest)
  {
  }

  lemma EntryAligned(v2: bool, f: File, rest: Data, down: ChannelError, entries: seq<Entry>)
    requires |f.name| <= U32_MAX
    ensures TakeEntries(v2, EntryReply(v2, f) + rest, down, entries)
            == TakeEntries(v2, rest, down, entries + [EntryOf(Transmitted(v2, f.stat), f.name)])
  {
    var b := HeaderOf(v2, f);
    EntryText(v2, f, rest);
    HeaderRead(v2, f);
    TakeFront(f.name, rest, down);
    AfterHeader(v2, b, f.name + rest, down, entries);
  }

  lemma ListEndAligned(v2: bool, rest: Data, down: ChannelError, entries: seq<Entry>)
    ensures TakeEntries(v2, IdBytes(DONE) + Zeros(HeaderLen(v2) - 4) + rest, down, entries) == Reply(Ok(entries), rest)
  {
    var b := IdBytes(DONE) + Zeros(HeaderLen(v2) - 4);
    TakeFront(b, rest, down);
    assert b[..4] == IdBytes(DONE);
  }

  lemma {:induction false} ListAligned(v2: bool, files: seq<File>, rest: Data, down: ChannelError, entries: seq<Entry>)
    requires Names(files)
    ensures TakeEntries(v2, Flatten(ListReply(v2, files)) + rest, down, entries)
            == Reply(Ok(entries + Listed(v2, files)), rest)
    decreases |files|
  {
    if files == [] {
      NoFiles(v2, rest);
      assert entries + [] == entries;
      ListEndAligned(v2, rest, down, entries);
    } else {
      var entry := EntryOf(Transmitted(v2, files[0].stat), files[0].name);
      FirstFile(v2, files, rest);
      EntryAligned(v2, files[0], Flatten(ListReply(v2, files[1..])) + rest, down, entries);
      ListAligned(v2, files[1..], rest, down, entries + [entry]);
      Regrouped(entries, [entry], Listed(v2, files[1..]));
    }
  }

  lemma NoFiles(v2: bool, rest: Data)
    ensures Flatten(ListReply(v2, [])) + rest == IdBytes(DONE) + Zeros(HeaderLen(v2) - 4) + rest
  {
    var end := IdBytes(DONE) + Zeros(HeaderLen(v2) - 4);
    assert ListReply(v2, []) == [end] + [];
    FlattenFirst(end, [], rest);
    assert Flatten([]) + rest == rest;
  }

  lemma FirstFile(v2: bool, files: seq<File>, rest: Data)
    requires files != []
    ensures Flatten(ListReply(v2, files)) + rest
            == EntryReply(v2, files[0]) + (Flatten(ListReply(v2, files[1..])) + rest)
  {
    var more := ListReply(v2, files[1..]);
    assert ListReply(v2, files) == [EntryReply(v2, files[0])] + more;
    FlattenFirst(EntryReply(v2, files[0]), more, rest);
  }

  lemma ChunkAligned(chunk: Data, rest: Data, down: ChannelError)
    requires |chunk| <= DATA_MAX
    ensures TakeData(Word(DATA, |chunk|) + chunk + rest, down) == Reply(Ok(Some(chunk)), rest)
  {
    var tail := Le32(|chunk|) + (chunk + rest);
    assert Word(DATA, |chunk|) + chunk + rest == IdBytes(DATA) + tail + [];
    StatusAligned(DATA, tail, [], down);
    assert tail + [] == tail;
    TakeWord(|chunk|, chunk + rest, down);
    TakeFront(chunk, rest, down);
  }

  lemma DoneAligned(rest: Data, down: ChannelError)
    ensures TakeData(Word(DONE, 0) + rest, down) == Reply(Ok(None), rest)
  {
    StatusAligned(DONE, Le32(0), rest, down);
    Different(DONE, DATA);
    TakeWord(0, rest, down);
  }

  lemma {:induction false} ChunksAligned(pieces: seq<Data>, rest: Data, down: ChannelError, chunks: seq<Data>)
    requires forall k :: 0 <= k < |pieces| ==> |pieces[k]| <= DATA_MAX
    ensures TakePull(Flatten(DataMessages(pieces) + [Word(DONE, 0)]) + rest, down, chunks)
            == PullReply(Pulled(chunks + pieces, None), rest)
    decreases |pieces|
  {
    var end := [Word(DONE, 0)];
    if pieces == [] {
      assert [] + end == [Word(DONE, 0)] + [];
      FlattenFirst(Word(DONE, 0), [], rest);
      assert Flatten([]) + rest == rest && chunks + [] == chunks;
      DoneAligned(rest, down);
    } else {
      var message := Word(DATA, |pieces[0]|) + pieces[0];
      var more := DataMessages(pieces[1..]) + end;
      assert DataMessages(pieces) + end == [message] + more;
      FlattenFirst(message, more, rest);
      ChunkAligned(pieces[0], Flatten(more) + rest, down);
      ChunksAligned(pieces[1..], rest, down, chunks + [pieces[0]]);
      assert chunks + [pieces[0]] + pieces[1..] == chunks + pieces;
    }
  }

  /** A pull gets the file in chunks of at most 64 KiB that make up its content, or the failure. */
  lemma PullAligned<F>(fs: FileSystem<F>, f: F, path: Data, rest: Data, down: ChannelError)
    requires ReplyFits(fs, f, PullCall(path))
    ensures TakePull(Flatten(RecvReply(fs, f, path)) + rest, down, []) == PullReply(FilePulled(fs, f, path), rest)
    ensures fs.read(f, path).Some? ==> Flatten(Chunks(fs.read(f, path).value)) == fs.read(f, path).value
  {
    var data := fs.read(f, path);
    if data.Some? {
      DeviceEngine.PiecesAreWhole(data.value, DATA_MAX);
      ChunksAligned(Chunks(data.value), rest, down, []);
      assert [] + Chunks(data.value) == Chunks(data.value);
    } else {
      OneChunk(Fail(fs.openFailed(path)));
      FailAligned(fs.openFailed(path), rest, down);
    }
  }

  /** The client reads exactly the reply to its call, and gets what the device encoded. */
  lemma CallAligned<F>(fs: FileSystem<F>, f: F, ft: Features, c: Call, rest: Data, down: ChannelError)
    requires ReplyFits(fs, f, c)
    ensures Receive(ft, c, Flatten(Serve(fs, f, ft, c).replies) + rest, down) == Received(Expected(fs, f, ft, c), rest)
  {
    match c {
      case StatCall(path) =>
        var stat := fs.stat(f, path);
        var shown := if stat.Some? then stat.value else if ft.statV2 then MISSING_STAT else EMPTY_STAT;
        OneChunk(StatReply(if ft.statV2 then STA2 else STAT, stat));
        StatAligned(ft.statV2, shown, rest, down);
      case ListCall(path) =>
        var files := FilesAt(fs, f, path);
        ListAligned(ft.lsV2, files, rest, down, []);
        assert [] + Listed(ft.lsV2, files) == Listed(ft.lsV2, files);
      case PullCall(path) => PullAligned(fs, f, path, rest, down);
      case PushCall(path, mode, mtime, pieces) =>
        var w := fs.write(f, path, mode, mtime, Flatten(pieces));
        if w.Ok? {
          OneChunk(Word(OKAY, 0));
          OkayAligned(rest, down);
        } else {
          OneChunk(Fail(w.error));
          FailAligned(w.error, rest, down);
        }
    }
  }

  /** A failure in answer to a listing or a status request would be taken apart wrongly, unless it
      happened to be as long as the reply asked for. */
  lemma FailureMisaligned(v2: bool, message: Data, rest: Data, down: ChannelError)
    ensures TakeEntries(v2, Fail(message) + rest, down, []).rest == rest <==> 8 + |message| == HeaderLen(v2)
    ensures TakeStat(v2, Fail(message) + rest, down).rest == rest <==>
              8 + |message| == (if v2 then STAT_V2_LEN else STAT_V1_LEN)
  {
    var s := Fail(message) + rest;
    assert s[..4] == IdBytes(FAIL);
    Different(FAIL, DONE);
    Different(FAIL, STAT);
    Different(FAIL, STA2);
    FrontOf(s, HeaderLen(v2));
    FrontOf(s, if v2 then STAT_V2_LEN else STAT_V1_LEN);
    assert s[8 + |message|..] == rest;
  }

  lemma FrontOf(s: Data, n: nat)
    requires n >= 4 && |s| >= 4
    ensures |s| >= n ==> s[..n][..4] == s[..4]
  {
  }

  // Whole sessions.

  predicate AllCallable(ft: Features, calls: seq<Call>) {
    forall k :: 0 <= k < |calls| ==> Callable(ft, calls[k])
  }

  function AllRequests(ft: Features, calls: seq<Call>): Data
    requires AllCallable(ft, calls)
  {
    if calls == [] then [] else RequestBytes(ft, calls[0]) + AllRequests(ft, calls[1..])
  }

  function ServeAll<F>(fs: FileSystem<F>, f: F, ft: Features, calls: seq<Call>): Served<F>
    decreases |calls|
  {
    if calls == [] then Served(f, [])
    else
      var first := Serve(fs, f, ft, calls[0]);
      var more := ServeAll(fs, first.fs, ft, calls[1..]);
      Served(more.fs, first.replies + more.replies)
  }

  predicate AllFit<F>(fs: FileSystem<F>, f: F, ft: Features, calls: seq<Call>)
    decreases |calls|
  {
    calls == [] || (ReplyFits(fs, f, calls[0]) && AllFit(fs, Serve(fs, f, ft, calls[0]).fs, ft, calls[1..]))
  }

  function ExpectAll<F>(fs: FileSystem<F>, f: F, ft: Features, calls: seq<Call>): seq<Outcome>
    decreases |calls|
  {
    if calls == [] then []
    else [Expected(fs, f, ft, calls[0])] + ExpectAll(fs, Serve(fs, f, ft, calls[0]).fs, ft, calls[1..])
  }

  datatype Session = Session(outcomes: seq<Outcome>, rest: Data)

  function ReceiveAll(ft: Features, calls: seq<Call>, s: Data, down: ChannelError): Session
    decreases |calls|
  {
    if calls == [] then Session([], s)
    else
      var first := Receive(ft, calls[0], s, down);
      var more := ReceiveAll(ft, calls[1..], first.rest, down);
      Session([first.outcome] + more.outcomes, more.rest)
  }

  lemma {:induction false} AllServed<F>(fs: FileSystem<F>, f: F, ft: Features, calls: seq<Call>)
    requires AllCallable(ft, calls)
    ensures var served := ServeAll(fs, f, ft, calls);
            Settle(fs, Device(f, AllRequests(ft, calls), Idle, false)) == Settled(Ready(served.fs), served.replies)
    decreases |calls|
  {
    if calls == [] {
      ReadyIsQuiet(fs, f);
    } else {
      CallSettles(fs, f, ft, calls[0], AllRequests(ft, calls[1..]), false);
      AllServed(fs, Serve(fs, f, ft, calls[0]).fs, ft, calls[1..]);
    }
  }

  lemma {:induction false} AllReceived<F>(fs: FileSystem<F>, f: F, ft: Features, calls: seq<Call>, rest: Data,
                                          down: ChannelError)
    requires AllFit(fs, f, ft, calls)
    ensures ReceiveAll(ft, calls, Flatten(ServeAll(fs, f, ft, calls).replies) + rest, down)
            == Session(ExpectAll(fs, f, ft, calls), rest)
    decreases |calls|
  {
    if calls == [] {
      assert Flatten([]) + rest == rest;
    } else {
      var first := Serve(fs, f, ft, calls[0]);
      var more := ServeAll(fs, first.fs, ft, calls[1..]);
      FlattenAppend(first.replies, more.replies);
      Regrouped(Flatten(first.replies), Flatten(more.replies), rest);
      CallAligned(fs, f, ft, calls[0], Flatten(more.replies) + rest, down);
      AllReceived(fs, first.fs, ft, calls[1..], rest, down);
    }
  }

  /** A session stays aligned: in whatever chunks the requests reach the device, it serves the calls
      one after the other and ends idle; and the client, reading the replies, gets for every call what
      the device had for it at that point, and leaves nothing but what follows. */
  lemma SessionIsAligned<F>(fs: FileSystem<F>, f: F, ft: Features, calls: seq<Call>, chunks: seq<Data>, rest: Data,
                            down: ChannelError)
    requires AllCallable(ft, calls) && AllFit(fs, f, ft, calls) && Flatten(chunks) == AllRequests(ft, calls)
    ensures var served := Feed(fs, Ready(f), chunks);
            && served.device == Ready(ServeAll(fs, f, ft, calls).fs)
            && ReceiveAll(ft, calls, Flatten(served.replies) + rest, down) == Session(ExpectAll(fs, f, ft, calls), rest)
  {
    var bytes := AllRequests(ft, calls);
    ReadyIsQuiet(fs, f);
    FeedIsWhole(fs, Ready(f), chunks);
    assert [] + bytes == bytes;
    AllServed(fs, f, ft, calls);
    AllReceived(fs, f, ft, calls, rest, down);
  }
}
