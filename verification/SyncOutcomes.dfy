/** What the calls of a `sync:` session say and return, byte by byte and field by field. */
module SyncOutcomes {
  import opened Bytes
  import opened Channel
  import opened SyncCodec
  import opened SyncDevice
  import opened SyncDeviceTheorems
  import opened SyncClient
  import opened SyncSession
  import DeviceEngine

  // What a call returns.

  /** A listed entry shows a file: all of it in the long form; in the short form a size beyond 32 bits
      as the largest of them, and a time outside of them as zero. */
  predicate EntryShows(v2: bool, file: File, e: Entry) {
    && e.name == file.name && e.mode == file.stat.mode
    && if v2 then e.size == file.stat.size && e.mtime == file.stat.mtime
       else
         && e.size == (if file.stat.size <= 0xFFFF_FFFF then file.stat.size else 0xFFFF_FFFF)
         && e.mtime == (if 0 <= file.stat.mtime <= 0xFFFF_FFFF then file.stat.mtime else 0)
  }

  /** The same for a status; a file that is not there shows as zeros, in the long form with error 2. */
  predicate StatShows(v2: bool, stat: Option<Stat>, got: Stat) {
    var mode, size, mtime := if stat.Some? then stat.value.mode else 0,
                             if stat.Some? then stat.value.size else 0,
                             if stat.Some? then stat.value.mtime else 0;
    && got.mode == mode
    && if v2 then
         && got.size == size && got.mtime == mtime
         && got.error == Some(if stat.None? then 2
                              else if stat.value.error.Some? then stat.value.error.value
                              else 0)
         && got.detail == Some(if stat.Some? && stat.value.detail.Some? then stat.value.detail.value
                               else StatDetail(0, 0, 0, 0, 0, 0, 0))
       else
         && got.size == (if size <= 0xFFFF_FFFF then size else 0xFFFF_FFFF)
         && got.mtime == (if 0 <= mtime <= 0xFFFF_FFFF then mtime else 0)
         && got.error == None && got.detail == None
  }

  /** What call `c` on the file system state `f` is to return. */
  predicate Shows<F>(fs: FileSystem<F>, f: F, ft: Features, c: Call, o: Outcome) {
    match c
    case StatCall(path) => o.GotStat? && o.stat.Ok? && StatShows(ft.statV2, fs.stat(f, path), o.stat.value)
    case ListCall(path) =>
      var files := if fs.list(f, path).Some? then fs.list(f, path).value else [];
      && o.GotList? && o.entries.Ok? && |o.entries.value| == |files|
      && forall k :: 0 <= k < |files| ==> EntryShows(ft.lsV2, files[k], o.entries.value[k])
    case PullCall(path) =>
      && o.GotPull?
      && if fs.read(f, path).Some? then
           && o.pulled.error == None && Flatten(o.pulled.chunks) == fs.read(f, path).value
           && (forall p :: p in o.pulled.chunks ==> 0 < |p| <= 0x1_0000)
           && forall k :: 0 <= k < |o.pulled.chunks| - 1 ==> |o.pulled.chunks[k]| == 0x1_0000
         else o.pulled == Pulled([], Some(RemoteFailure(fs.openFailed(path))))
    case PushCall(path, mode, mtime, pieces) =>
      && o.GotPush?
      && match fs.write(f, path, mode, mtime, Flatten(pieces))
         case Ok(_) => o.status == Ok(())
         case Err(message) => o.status == Err(RemoteFailure(message))
  }

  lemma {:induction false} ListedShows(v2: bool, files: seq<File>, k: nat)
    requires k < |files|
    ensures |Listed(v2, files)| == |files| && EntryShows(v2, files[k], Listed(v2, files)[k])
    decreases |files|
  {
    if k > 0 {
      ListedShows(v2, files[1..], k - 1);
    } else if |files| > 1 {
      ListedShows(v2, files[1..], 0);
    } else {
      assert Listed(v2, files[1..]) == [];
    }
  }

  lemma ExpectedShows<F>(fs: FileSystem<F>, f: F, ft: Features, c: Call)
    ensures Shows(fs, f, ft, c, Expected(fs, f, ft, c))
  {
    match c {
      case ListCall(path) =>
        var files := FilesAt(fs, f, path);
        forall k | 0 <= k < |files|
          ensures |Listed(ft.lsV2, files)| == |files| && EntryShows(ft.lsV2, files[k], Listed(ft.lsV2, files)[k])
        {
          ListedShows(ft.lsV2, files, k);
        }
      case PullCall(path) =>
        if fs.read(f, path).Some? {
          DeviceEngine.PiecesAreWhole(fs.read(f, path).value, DATA_MAX);
          DeviceEngine.PiecesAreFull(fs.read(f, path).value, DATA_MAX);
        }
      case _ =>
    }
  }

  /** One call, answered by the device: what it returns shows what the device has, and what follows the
      reply is left. */
  lemma CallShows<F>(fs: FileSystem<F>, f: F, ft: Features, c: Call, rest: Data, down: ChannelError)
    requires ReplyFits(fs, f, c)
    ensures var r := Receive(ft, c, Flatten(Serve(fs, f, ft, c).replies) + rest, down);
            Shows(fs, f, ft, c, r.outcome) && r.rest == rest
  {
    CallAligned(fs, f, ft, c, rest, down);
    ExpectedShows(fs, f, ft, c);
  }

  /** The file system after the first `k` calls: only pushes that succeed change it. */
  function FsAfter<F>(fs: FileSystem<F>, f: F, calls: seq<Call>, k: nat): F
    requires k <= |calls|
  {
    if k == 0 then f
    else
      var before := FsAfter(fs, f, calls, k - 1);
      match calls[k - 1]
      case PushCall(path, mode, mtime, pieces) =>
        (match fs.write(before, path, mode, mtime, Flatten(pieces))
         case Ok(after) => after
         case Err(_) => before)
      case _ => before
  }

  lemma ServedFs<F>(fs: FileSystem<F>, f: F, ft: Features, calls: seq<Call>)
    requires calls != []
    ensures Serve(fs, f, ft, calls[0]).fs == FsAfter(fs, f, calls, 1)
  {
    assert FsAfter(fs, f, calls, 0) == f;
  }

  lemma {:induction false} FsAfterFirst<F>(fs: FileSystem<F>, f: F, ft: Features, calls: seq<Call>, k: nat)
    requires 0 < k <= |calls|
    ensures FsAfter(fs, f, calls, k) == FsAfter(fs, Serve(fs, f, ft, calls[0]).fs, calls[1..], k - 1)
    decreases k
  {
    if k == 1 {
      ServedFs(fs, f, ft, calls);
    } else {
      FsAfterFirst(fs, f, ft, calls, k - 1);
      assert calls[1..][k - 2] == calls[k - 1];
    }
  }

  lemma {:induction false} ExpectAllAt<F>(fs: FileSystem<F>, f: F, ft: Features, calls: seq<Call>, k: nat)
    requires k < |calls|
    ensures |ExpectAll(fs, f, ft, calls)| == |calls|
    ensures ExpectAll(fs, f, ft, calls)[k] == Expected(fs, FsAfter(fs, f, calls, k), ft, calls[k])
    decreases |calls|
  {
    var next := Serve(fs, f, ft, calls[0]).fs;
    if k > 0 {
      ExpectAllAt(fs, next, ft, calls[1..], k - 1);
      FsAfterFirst(fs, f, ft, calls, k);
    } else if |calls| > 1 {
      ExpectAllAt(fs, next, ft, calls[1..], 0);
    }
  }

  lemma ExpectAllShows<F>(fs: FileSystem<F>, f: F, ft: Features, calls: seq<Call>, k: nat)
    requires k < |calls|
    ensures |ExpectAll(fs, f, ft, calls)| == |calls|
    ensures Shows(fs, FsAfter(fs, f, calls, k), ft, calls[k], ExpectAll(fs, f, ft, calls)[k])
  {
    ExpectAllAt(fs, f, ft, calls, k);
    ExpectedShows(fs, FsAfter(fs, f, calls, k), ft, calls[k]);
  }

  lemma {:induction false} ServedAll<F>(fs: FileSystem<F>, f: F, ft: Features, calls: seq<Call>)
    ensures ServeAll(fs, f, ft, calls).fs == FsAfter(fs, f, calls, |calls|)
    decreases |calls|
  {
    if calls != [] {
      ServedAll(fs, Serve(fs, f, ft, calls[0]).fs, ft, calls[1..]);
      FsAfterFirst(fs, f, ft, calls, |calls|);
    }
  }

  /** A whole session under any chunking: call `k` returns what the device has after the pushes before
      it, the device ends idle with all pushes done, and the client has read all replies. */
  lemma SessionShows<F>(fs: FileSystem<F>, f: F, ft: Features, calls: seq<Call>, chunks: seq<Data>, rest: Data,
                        down: ChannelError)
    requires AllCallable(ft, calls) && AllFit(fs, f, ft, calls) && Flatten(chunks) == AllRequests(ft, calls)
    ensures var served := Feed(fs, Ready(f), chunks);
            var read := ReceiveAll(ft, calls, Flatten(served.replies) + rest, down);
            && served.device == Device(FsAfter(fs, f, calls, |calls|), [], Idle, false)
            && read.rest == rest && |read.outcomes| == |calls|
            && forall k :: 0 <= k < |calls| ==> Shows(fs, FsAfter(fs, f, calls, k), ft, calls[k], read.outcomes[k])
  {
    SessionIsAligned(fs, f, ft, calls, chunks, rest, down);
    ServedAll(fs, f, ft, calls);
    forall k | 0 <= k < |calls|
      ensures |ExpectAll(fs, f, ft, calls)| == |calls|
      ensures Shows(fs, FsAfter(fs, f, calls, k), ft, calls[k], ExpectAll(fs, f, ft, calls)[k])
    {
      ExpectAllShows(fs, f, ft, calls, k);
    }
  }

  // What a call says.

  /** A text of four characters and a number. */
  function Tagged(name: string, value: u32): Data
    requires |name| == 4 && forall k :: 0 <= k < 4 ==> name[k] as int < 0x80
  {
    Ascii(name) + Le32(value)
  }

  lemma IdsAreTags(id: Id, name: string, value: u32)
    requires |name| == 4 && (forall k :: 0 <= k < 4 ==> name[k] as int < 0x80) && IdBytes(id) == Ascii(name)
    ensures Word(id, value) == Tagged(name, value)
  {
  }

  /** The bytes of every request, in both forms. */
  lemma RequestText(ft: Features, c: Call)
    requires Callable(ft, c) && !c.PushCall?
    ensures var len: u32 := |c.path|;
            RequestBytes(ft, c) == match c
              case StatCall(path) => Tagged(if ft.statV2 then "STA2" else "STAT", len) + path
              case ListCall(path) => Tagged(if ft.lsV2 then "LIS2" else "LIST", len) + path
              case PullCall(path) =>
                if ft.sendrecvV2 then Tagged("RCV2", len) + path + Tagged("RCV2", 0) else Tagged("RECV", len) + path
              case PushCall(_, _, _, _) => []
  {
    match c {
      case StatCall(_) => IdIsItsName(if ft.statV2 then STA2 else STAT);
      case ListCall(_) => IdIsItsName(if ft.lsV2 then LIS2 else LIST);
      case PullCall(_) => IdIsItsName(if ft.sendrecvV2 then RCV2 else RECV);
    }
  }

  /** A decimal number as it is written, without leading zeros. */
  lemma {:induction false} DecimalIsPlain(n: nat)
    ensures AllDigits(Decimal(n)) && DecimalValue(Decimal(n)) == n && (n > 0 ==> Decimal(n)[0] != 0x30)
    ensures Decimal(0) == [0x30]
  {
    DecimalRoundTrip(n);
    if n >= 10 {
      DecimalIsPlain(n / 10);
      assert Decimal(n)[0] == Decimal(n / 10)[0];
    }
  }

  /** The head of a push: in the first form the mode is in the argument, behind a comma. */
  lemma PushHeadText(v2: bool, path: Data, mode: u32)
    requires Pushable(v2, path, mode)
    ensures PushHead(v2, path, mode) ==
            if v2 then Tagged("SND2", |path|) + path + Tagged("SND2", mode) + Le32(0)
            else
              var argument := path + Ascii(",") + Decimal(mode);
              Tagged("SEND", |argument|) + argument
  {
    IdIsItsName(SND2);
    IdIsItsName(SEND);
    assert Ascii(",") == [COMMA];
    if v2 {
      FourRegrouped(Tagged("SND2", |path|) + path, Tagged("SND2", mode), Le32(0), []);
      assert Tagged("SND2", mode) + Le32(0) + [] == Tagged("SND2", mode) + Le32(0);
      assert Tagged("SND2", |path|) + path + Tagged("SND2", mode) + Le32(0) + []
             == Tagged("SND2", |path|) + path + Tagged("SND2", mode) + Le32(0);
    }
  }

  /** One piece of a push, and its end. */
  lemma PushBodyText(pieces: seq<Data>, k: nat, mtime: u32)
    requires k < |pieces| && Sendable(pieces)
    ensures |DataMessages(pieces)| == |pieces|
    ensures DataMessages(pieces)[k] == Tagged("DATA", |pieces[k]|) + pieces[k]
    ensures Word(DONE, mtime) == Tagged("DONE", mtime)
    decreases |pieces|
  {
    IdIsItsName(DATA);
    IdIsItsName(DONE);
    FirstMessage(pieces);
    if k > 0 {
      PushBodyText(pieces[1..], k - 1, mtime);
    } else if |pieces| > 1 {
      PushBodyText(pieces[1..], 0, mtime);
    } else {
      assert DataMessages(pieces[1..]) == [];
    }
  }

  // What the client makes of anything else.

  predicate Starts(s: Data, name: string)
    requires |name| == 4 && forall k :: 0 <= k < 4 ==> name[k] as int < 0x80
  {
    |s| >= 4 && s[..4] == Ascii(name)
  }

  /** A status that is neither of the two is reported with its id, which is all that is taken. */
  lemma OtherStatus(s: Data, down: ChannelError)
    ensures |s| < 4 ==> TakeStatus(s, down) == Reply(Err(Lost(down)), s)
    ensures |s| >= 4 && !Starts(s, "OKAY") && !Starts(s, "FAIL") ==>
              TakeStatus(s, down) == Reply(Err(Unexpected(s[..4])), s[4..])
  {
    IdIsItsName(OKAY);
    IdIsItsName(FAIL);
  }

  /** The same for a chunk; one of more than 64 KiB is refused once its length is known. */
  lemma OtherData(s: Data, down: ChannelError)
    ensures |s| < 4 ==> TakeData(s, down) == Reply(Err(Lost(down)), s)
    ensures |s| >= 4 && !Starts(s, "DATA") && !Starts(s, "DONE") && !Starts(s, "FAIL") ==>
              TakeData(s, down) == Reply(Err(Unexpected(s[..4])), s[4..])
    ensures |s| >= 8 && Starts(s, "DATA") && U32At(s, 4) > 0x1_0000 ==>
              TakeData(s, down) == Reply(Err(ChunkTooLarge), s[8..])
    ensures |s| >= 8 && Starts(s, "DATA") && U32At(s, 4) <= 0x1_0000 && |s| >= 8 + U32At(s, 4) ==>
              TakeData(s, down) == Reply(Ok(Some(s[8..8 + U32At(s, 4)])), s[8 + U32At(s, 4)..])
  {
    IdIsItsName(DATA);
    IdIsItsName(DONE);
    IdIsItsName(FAIL);
    if |s| >= 8 {
      var n: nat := U32At(s, 4);
      assert s[4..][..4] == s[4..8] && s[4..][4..] == s[8..];
      if |s| >= 8 + n {
        assert s[8..][..n] == s[8..8 + n] && s[8..][n..] == s[8 + n..];
      }
    }
  }

  /** A status reply is taken whole whatever it is, and refused for any other id. */
  lemma OtherStat(v2: bool, s: Data, down: ChannelError)
    ensures var n := if v2 then 72 else 16;
            && (|s| < n ==> TakeStat(v2, s, down) == Reply(Err(Lost(down)), s))
            && (|s| >= n && !Starts(s, if v2 then "STA2" else "STAT") ==>
                  TakeStat(v2, s, down) == Reply(Err(Unexpected(s[..4])), s[n..]))
  {
    IdIsItsName(if v2 then STA2 else STAT);
    if |s| >= 72 {
      assert s[..72][..4] == s[..4];
    }
    if |s| >= 16 {
      assert s[..16][..4] == s[..4];
    }
  }

  /** A listing ends with DONE, fails with FAIL, and is refused for any other id; a header is taken
      whole in each case. */
  lemma OtherEntries(v2: bool, s: Data, down: ChannelError, entries: seq<Entry>)
    ensures var n := if v2 then 76 else 20;
            && (|s| < n ==> TakeEntries(v2, s, down, entries) == Reply(Err(Lost(down)), s))
            && (|s| >= n && Starts(s, "DONE") ==> TakeEntries(v2, s, down, entries) == Reply(Ok(entries), s[n..]))
            && (|s| >= n && Starts(s, "FAIL") ==>
                  TakeEntries(v2, s, down, entries) == Reply(Err(RemoteFailure(TrimZeros(s[8..n]))), s[n..]))
            && (|s| >= n && !Starts(s, "DONE") && !Starts(s, "FAIL") && !Starts(s, if v2 then "DNT2" else "DENT") ==>
                  TakeEntries(v2, s, down, entries) == Reply(Err(Unexpected(s[..4])), s[n..]))
  {
    IdIsItsName(DONE);
    IdIsItsName(FAIL);
    IdIsItsName(if v2 then DNT2 else DENT);
    Different(FAIL, DONE);
    var n := if v2 then 76 else 20;
    if |s| >= n {
      assert s[..n][..4] == s[..4] && s[..n][8..] == s[8..n];
    }
  }

  /** Only zeros are trimmed, and all that are at the end. */
  lemma {:induction false} TrimZerosIsExact(s: Data)
    ensures var t := TrimZeros(s);
            && |t| <= |s| && s == t + Zeros(|s| - |t|)
            && (t != [] ==> t[|t| - 1] != 0)
    decreases |s|
  {
    if s != [] && s[|s| - 1] == 0 {
      TrimZerosIsExact(s[..|s| - 1]);
      assert s == s[..|s| - 1] + [0];
    }
  }

  // What the device makes of anything else.

  /** The argument of a push is split at its last comma; without one it is all file. A mode that is
      missing or not a number of 32 bits is 0o644. */
  lemma SplitAtLastComma(arg: Data, comma: nat)
    requires comma < |arg| && arg[comma] == 0x2C && forall k :: comma < k < |arg| ==> arg[k] != 0x2C
    ensures var mode := ParseU32(arg[comma + 1..]);
            TargetOf(arg, |arg|) == Target(arg[..comma], if mode.Some? then mode.value else 420)
  {
    TargetSkips(arg, |arg|, comma);
  }

  lemma {:induction false} NoComma(arg: Data, at: nat)
    requires at <= |arg| && forall k :: 0 <= k < at ==> arg[k] != 0x2C
    ensures TargetOf(arg, at) == Target(arg, 420)
    decreases at
  {
    if at > 0 {
      NoComma(arg, at - 1);
    }
  }

  /** A number is its digits, a plus sign in front of them or not, and must fit 32 bits. */
  lemma NumbersParsed(n: nat, s: Data)
    ensures ParseU32(Decimal(n)) == ParseU32([0x2B] + Decimal(n)) == if n <= 0xFFFF_FFFF then Some(n) else None
    ensures s == [] || s == [0x2B] ==> ParseU32(s) == None
    ensures (exists k :: 0 < k < |s| && !(0x30 <= s[k] <= 0x39)) ==> ParseU32(s) == None
  {
    DecimalRoundTrip(n);
    var plus := [0x2B] + Decimal(n);
    assert plus[1..] == Decimal(n);
    assert Digit(Decimal(n)[0]);
    if k :| 0 < k < |s| && !(0x30 <= s[k] <= 0x39) {
      assert s[1..][k - 1] == s[k] && !Digit(s[1..][k - 1]) && !Digit(s[k]);
    }
  }

  /** While a file is being received, nothing but DATA and DONE is taken off the buffer; QUIT is not
      taken off it either, but noted. Nothing is taken before its first eight bytes are there. */
  lemma StuckDevice<F>(fs: FileSystem<F>, d: Device<F>)
    ensures |d.buffer| < 8 ==> Step(fs, d) == Turn(d, [], false)
    ensures d.state.Receiving? && |d.buffer| >= 8 && !Starts(d.buffer, "DATA") && !Starts(d.buffer, "DONE") ==>
              Step(fs, d) == Turn(d, [], false)
    ensures d.state.Idle? && |d.buffer| >= 8 && Starts(d.buffer, "QUIT") ==>
              Step(fs, d) == Turn(d.(done := true), [], false)
  {
    IdIsItsName(DATA);
    IdIsItsName(DONE);
    IdIsItsName(QUIT);
  }


  /** The long status request that does not follow links is answered like the other. */
  lemma LinkRequest<F>(fs: FileSystem<F>, f: F, path: Data)
    ensures AnswerRequest(fs, f, Ascii("LST2"), path) == Answer(Idle, [StatReply(LST2, fs.stat(f, path))])
  {
    IdIsItsName(LST2);
    Different(LST2, STAT);
    Different(LST2, STA2);
  }

  /** A request with an id that is none of these fails, with the message the device has for it. */
  lemma OtherRequests<F>(fs: FileSystem<F>, f: F, head: Data, path: Data)
    requires forall id :: id in {STAT, STA2, LST2, LIST, LIS2, RECV, RCV2, SEND, SND2} ==> head != IdBytes(id)
    ensures AnswerRequest(fs, f, head, path) == Answer(Idle, [Fail(fs.unknownRequest(head))])
  {
  }

  /** A failure is its id, the length of its message, and the message. */
  lemma FailText(message: Data)
    requires |message| <= U32_MAX
    ensures Fail(message) == Tagged("FAIL", |message|) + message
  {
    IdIsItsName(FAIL);
  }
}
