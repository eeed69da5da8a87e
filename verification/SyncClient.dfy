/** The client of a `sync:` stream. Each method is proved against a function of all the bytes still
    to be read, so it does not matter in which chunks they come. */
module SyncClient {
  import opened Bytes
  import opened Channel
  import opened SyncCodec
  import opened SyncDevice
  import opened SyncDeviceTheorems
  import Framed

  datatype SyncError =
    | Lost(error: ChannelError) | RemoteFailure(message: Data) | Unexpected(id: Data)
    | PathTooLong | ChunkTooLarge | SourceFailed

  /** A result and what remains to be read. */
  datatype Reply<+T> = Reply(result: Result<T, SyncError>, rest: Data)

  /** `len` bytes of `s`, or the stream's error, taking nothing. */
  function Take(s: Data, len: nat, down: ChannelError): (r: Reply<Data>)
    ensures r.result.Ok? ==> |r.result.value| == len && s == r.result.value + r.rest
  {
    if |s| < len then Reply(Err(Lost(down)), s) else Reply(Ok(s[..len]), s[len..])
  }

  function TakeU32(s: Data, down: ChannelError): Reply<u32> {
    var t := Take(s, 4, down);
    Reply(if t.result.Ok? then Ok(FromLe32(t.result.value)) else Err(t.result.error), t.rest)
  }

  /** The error of a failure message: the message, or the stream's error. */
  function TakeFailure(s: Data, down: ChannelError): Reply<()> {
    var len := TakeU32(s, down);
    if len.result.Err? then Reply(Err(len.result.error), len.rest)
    else
      var message := Take(len.rest, len.result.value, down);
      Reply(Err(if message.result.Ok? then RemoteFailure(message.result.value) else message.result.error), message.rest)
  }

  function TakeStatus(s: Data, down: ChannelError): Reply<()> {
    var id := Take(s, 4, down);
    if id.result.Err? then Reply(Err(id.result.error), id.rest)
    else if id.result.value == IdBytes(OKAY) then
      var w := TakeU32(id.rest, down);
      Reply(if w.result.Ok? then Ok(()) else Err(w.result.error), w.rest)
    else if id.result.value == IdBytes(FAIL) then TakeFailure(id.rest, down)
    else Reply(Err(Unexpected(id.result.value)), id.rest)
  }

  function TakeStat(v2: bool, s: Data, down: ChannelError): Reply<Stat> {
    var t := Take(s, if v2 then STAT_V2_LEN else STAT_V1_LEN, down);
    if t.result.Err? then Reply(Err(t.result.error), t.rest)
    else
      var b := t.result.value;
      if b[..4] != IdBytes(if v2 then STA2 else STAT) then Reply(Err(Unexpected(b[..4])), t.rest)
      else Reply(Ok(if v2 then StatV2(b) else StatV1(b)), t.rest)
  }

  function EntryOf(s: Stat, name: Data): Entry {
    Entry(name, s.mode, s.size, s.mtime)
  }

  function TrimZeros(s: Data): Data {
    if s != [] && s[|s| - 1] == 0 then TrimZeros(s[..|s| - 1]) else s
  }

  function HeaderLen(v2: bool): nat {
    if v2 then DENT_V2_LEN else DENT_V1_LEN
  }

  /** The entries up to the end of the list, after `entries`. */
  function TakeEntries(v2: bool, s: Data, down: ChannelError, entries: seq<Entry>): Reply<seq<Entry>>
    decreases |s|
  {
    var t := Take(s, HeaderLen(v2), down);
    if t.result.Err? then Reply(Err(t.result.error), t.rest)
    else
      var b := t.result.value;
      if b[..4] == IdBytes(DONE) then Reply(Ok(entries), t.rest)
      else if b[..4] == IdBytes(FAIL) then Reply(Err(RemoteFailure(TrimZeros(b[8..]))), t.rest)
      else if b[..4] != IdBytes(if v2 then DNT2 else DENT) then Reply(Err(Unexpected(b[..4])), t.rest)
      else
        var name := Take(t.rest, U32At(b, HeaderLen(v2) - 4), down);
        if name.result.Err? then Reply(Err(name.result.error), name.rest)
        else
          TakeEntries(v2, name.rest, down,
                      entries + [EntryOf(if v2 then StatV2(b) else StatV1(b), name.result.value)])
  }

  function TakeData(s: Data, down: ChannelError): Reply<Option<Data>> {
    var id := Take(s, 4, down);
    if id.result.Err? then Reply(Err(id.result.error), id.rest)
    else if id.result.value == IdBytes(DATA) then
      var len := TakeU32(id.rest, down);
      if len.result.Err? then Reply(Err(len.result.error), len.rest)
      else if len.result.value > DATA_MAX then Reply(Err(ChunkTooLarge), len.rest)
      else
        var data := Take(len.rest, len.result.value, down);
        Reply(if data.result.Ok? then Ok(Some(data.result.value)) else Err(data.result.error), data.rest)
    else if id.result.value == IdBytes(DONE) then
      var w := TakeU32(id.rest, down);
      Reply(if w.result.Ok? then Ok(None) else Err(w.result.error), w.rest)
    else if id.result.value == IdBytes(FAIL) then
      var f := TakeFailure(id.rest, down);
      Reply(Err(f.result.error), f.rest)
    else Reply(Err(Unexpected(id.result.value)), id.rest)
  }

  lemma TakeDataConsumes(s: Data, down: ChannelError)
    ensures TakeData(s, down).result.Ok? ==> |TakeData(s, down).rest| < |s|
  {
  }

  /** A pull read to its end: the chunks, and the error if there is one. */
  datatype Pulled = Pulled(chunks: seq<Data>, error: Option<SyncError>)

  datatype PullReply = PullReply(pulled: Pulled, rest: Data)

  function TakePull(s: Data, down: ChannelError, chunks: seq<Data>): PullReply
    decreases |s|
  {
    var t := TakeData(s, down);
    TakeDataConsumes(s, down);
    match t.result
    case Err(e) => PullReply(Pulled(chunks, Some(e)), t.rest)
    case Ok(None) => PullReply(Pulled(chunks, None), t.rest)
    case Ok(Some(chunk)) => TakePull(t.rest, down, chunks + [chunk])
  }

  datatype Features = Features(lsV2: bool, statV2: bool, sendrecvV2: bool)

  class Client {
    const reader: ChannelReader
    const features: Features

    constructor (reader: ChannelReader, features: Features)
      ensures this.reader == reader && this.features == features
    {
      this.reader, this.features := reader, features;
    }

    function Down(): ChannelError {
      if reader.channel.failing then ChannelDown else StreamClosed
    }

    method Read(len: nat) returns (r: Result<Data, SyncError>)
      modifies reader, reader.channel`chunks
      ensures Reply(r, reader.Remaining()) == Take(old(reader.Remaining()), len, Down())
    {
      var b := reader.ReadExact(len);
      r := if b.Ok? then Ok(b.value) else Err(Lost(b.error));
    }

    method ReadU32() returns (r: Result<u32, SyncError>)
      modifies reader, reader.channel`chunks
      ensures Reply(r, reader.Remaining()) == TakeU32(old(reader.Remaining()), Down())
    {
      var w := reader.ReadU32();
      r := if w.Ok? then Ok(w.value) else Err(Lost(w.error));
    }

    method Fail() returns (e: SyncError)
      modifies reader, reader.channel`chunks
      ensures Reply(Err(e), reader.Remaining()) == TakeFailure(old(reader.Remaining()), Down())
    {
      var len := ReadU32();
      if len.Err? {
        return len.error;
      }
      var message := Read(len.value);
      e := if message.Ok? then RemoteFailure(message.value) else message.error;
    }

    /** An `OKAY` or `FAIL` status. */
    method ReadStatus() returns (r: Result<(), SyncError>)
      modifies reader, reader.channel`chunks
      ensures Reply(r, reader.Remaining()) == TakeStatus(old(reader.Remaining()), Down())
    {
      var id := Read(4);
      if id.Err? {
        return Err(id.error);
      }
      if id.value == IdBytes(OKAY) {
        var w := ReadU32();
        return if w.Ok? then Ok(()) else Err(w.error);
      }
      if id.value == IdBytes(FAIL) {
        var e := Fail();
        return Err(e);
      }
      r := Err(Unexpected(id.value));
    }

    /** `text` behind what was sent before, as far as the channel takes it. */
    ghost predicate Sends(before: Data, text: Data)
      reads reader.channel
    {
      reader.channel.sent == Capped(before + text, reader.channel.room)
    }

    predicate Takes(before: Data, text: Data) {
      Fits(before + text, reader.channel.room)
    }

    function SendFailure(): SyncError {
      Lost(reader.channel.sendError)
    }

    method SendText(text: Data) returns (r: Result<(), SyncError>)
      modifies reader.channel`sent
      ensures Sends(old(reader.channel.sent), text)
      ensures r == if Takes(old(reader.channel.sent), text) then Ok(()) else Err(SendFailure())
    {
      var s := reader.channel.Send(text);
      r := if s.Ok? then Ok(()) else Err(Lost(s.error));
    }

    method SendRequest(id: Id, path: Data) returns (r: Result<(), SyncError>)
      modifies reader.channel`sent
      ensures |path| > U32_MAX ==> r == Err(PathTooLong) && reader.channel.sent == old(reader.channel.sent)
      ensures |path| <= U32_MAX ==>
                && Sends(old(reader.channel.sent), Request(id, path))
                && r == if Takes(old(reader.channel.sent), Request(id, path)) then Ok(()) else Err(SendFailure())
    {
      if |path| > U32_MAX {
        return Err(PathTooLong);
      }
      r := SendText(Request(id, path));
    }

    method Stat(path: Data) returns (r: Result<Stat, SyncError>)
      modifies reader, reader.channel`chunks, reader.channel`sent
      ensures |path| > U32_MAX ==> r == Err(PathTooLong) && reader.channel.sent == old(reader.channel.sent)
                                   && reader.Remaining() == old(reader.Remaining())
      ensures |path| <= U32_MAX ==>
                var request := Request(if features.statV2 then STA2 else STAT, path);
                && Sends(old(reader.channel.sent), request)
                && if Takes(old(reader.channel.sent), request) then
                     Reply(r, reader.Remaining()) == TakeStat(features.statV2, old(reader.Remaining()), Down())
                   else r == Err(SendFailure()) && reader.Remaining() == old(reader.Remaining())
    {
      var id := if features.statV2 then STA2 else STAT;
      var sent := SendRequest(id, path);
      if sent.Err? {
        return Err(sent.error);
      }
      var b := Read(if features.statV2 then STAT_V2_LEN else STAT_V1_LEN);
      if b.Err? {
        return Err(b.error);
      }
      if b.value[..4] != IdBytes(id) {
        return Err(Unexpected(b.value[..4]));
      }
      r := Ok(if features.statV2 then StatV2(b.value) else StatV1(b.value));
    }

    method List(path: Data) returns (r: Result<seq<Entry>, SyncError>)
      modifies reader, reader.channel`chunks, reader.channel`sent
      ensures |path| > U32_MAX ==> r == Err(PathTooLong) && reader.channel.sent == old(reader.channel.sent)
                                   && reader.Remaining() == old(reader.Remaining())
      ensures |path| <= U32_MAX ==>
                var request := Request(if features.lsV2 then LIS2 else LIST, path);
                && Sends(old(reader.channel.sent), request)
                && if Takes(old(reader.channel.sent), request) then
                     Reply(r, reader.Remaining()) == TakeEntries(features.lsV2, old(reader.Remaining()), Down(), [])
                   else r == Err(SendFailure()) && reader.Remaining() == old(reader.Remaining())
    {
      var v2 := features.lsV2;
      var requested := SendRequest(if v2 then LIS2 else LIST, path);
      if requested.Err? {
        return Err(requested.error);
      }
      ghost var sent := reader.channel.sent;
      ghost var whole := TakeEntries(v2, reader.Remaining(), Down(), []);
      var entries: seq<Entry> := [];
      while true
        invariant TakeEntries(v2, reader.Remaining(), Down(), entries) == whole && reader.channel.sent == sent
        decreases |reader.Remaining()|
      {
        var b := Read(HeaderLen(v2));
        if b.Err? {
          return Err(b.error);
        }
        if b.value[..4] == IdBytes(DONE) {
          return Ok(entries);
        }
        if b.value[..4] == IdBytes(FAIL) {
          return Err(RemoteFailure(TrimZeros(b.value[8..])));
        }
        if b.value[..4] != IdBytes(if v2 then DNT2 else DENT) {
          return Err(Unexpected(b.value[..4]));
        }
        var stat := if v2 then StatV2(b.value) else StatV1(b.value);
        var name := Read(U32At(b.value, HeaderLen(v2) - 4));
        if name.Err? {
          return Err(name.error);
        }
        entries := entries + [EntryOf(stat, name.value)];
      }
    }

    method NextData() returns (r: Result<Option<Data>, SyncError>)
      modifies reader, reader.channel`chunks
      ensures Reply(r, reader.Remaining()) == TakeData(old(reader.Remaining()), Down())
    {
      var id := Read(4);
      if id.Err? {
        return Err(id.error);
      }
      if id.value == IdBytes(DATA) {
        var len := ReadU32();
        if len.Err? {
          return Err(len.error);
        }
        if len.value > DATA_MAX {
          return Err(ChunkTooLarge);
        }
        var data := Read(len.value);
        return if data.Ok? then Ok(Some(data.value)) else Err(data.error);
      }
      if id.value == IdBytes(DONE) {
        var w := ReadU32();
        return if w.Ok? then Ok(None) else Err(w.error);
      }
      if id.value == IdBytes(FAIL) {
        var e := Fail();
        return Err(e);
      }
      r := Err(Unexpected(id.value));
    }

    /** Two texts sent after one another, the second only if the first was taken. */
    method SendBoth(first: Result<(), SyncError>, ghost before: Data, ghost head: Data, text: Data)
      returns (r: Result<(), SyncError>)
      requires Sends(before, head) && first == if Takes(before, head) then Ok(()) else Err(SendFailure())
      modifies reader.channel`sent
      ensures Sends(before, head + text)
      ensures r == if Takes(before, head + text) then Ok(()) else Err(SendFailure())
    {
      CappedTwice(before, head, text, reader.channel.room);
      if first.Err? {
        return first;
      }
      r := SendText(text);
    }

    method StartPull(path: Data) returns (r: Result<(), SyncError>)
      modifies reader.channel`sent
      ensures |path| > U32_MAX ==> r == Err(PathTooLong) && reader.channel.sent == old(reader.channel.sent)
      ensures |path| <= U32_MAX ==>
                var text := PullBytes(features.sendrecvV2, path);
                && Sends(old(reader.channel.sent), text)
                && r == if Takes(old(reader.channel.sent), text) then Ok(()) else Err(SendFailure())
    {
      if features.sendrecvV2 {
        r := SendRequest(RCV2, path);
        if r != Err(PathTooLong) {
          r := SendBoth(r, old(reader.channel.sent), Request(RCV2, path), Word(RCV2, 0));
        }
      } else {
        r := SendRequest(RECV, path);
      }
    }

    /** A pull: the request, and a stream that takes one chunk at a time. */
    method Pull(path: Data) returns (r: Result<PullStream, SyncError>)
      modifies reader.channel`sent
      ensures |path| > U32_MAX ==> r == Err(PathTooLong) && reader.channel.sent == old(reader.channel.sent)
      ensures |path| <= U32_MAX ==>
                var text := PullBytes(features.sendrecvV2, path);
                && Sends(old(reader.channel.sent), text)
                && if Takes(old(reader.channel.sent), text) then r.Ok? else r == Err(SendFailure())
      ensures r.Ok? ==> fresh(r.value) && r.value.client == this && !r.value.done
    {
      var started := StartPull(path);
      if started.Err? {
        return Err(started.error);
      }
      var stream := new PullStream(this);
      return Ok(stream);
    }

    /** A push of all that `source` yields; `pieces` is how it was read. The status is read only when
        everything has been sent. */
    method Push(path: Data, mode: u32, mtime: u32, source: Framed.Source)
      returns (r: Result<(), SyncError>, ghost pieces: seq<Data>)
      requires source.Valid()
      modifies reader, reader.channel`chunks, reader.channel`sent, source
      ensures FullOrPart(pieces) && Flatten(pieces) <= old(Flatten(source.fragments))
      ensures !Pushable(features.sendrecvV2, path, mode) ==>
                && r == Err(PathTooLong) && reader.channel.sent == old(reader.channel.sent)
                && reader.Remaining() == old(reader.Remaining())
      ensures Pushable(features.sendrecvV2, path, mode) ==>
                var before := old(reader.channel.sent);
                var unfinished := PushHead(features.sendrecvV2, path, mode) + Flatten(DataMessages(pieces));
                var whole := PushBytes(features.sendrecvV2, path, mode, mtime, pieces);
                if !Takes(before, unfinished) then
                  r == Err(SendFailure()) && Sends(before, unfinished) && reader.Remaining() == old(reader.Remaining())
                else
                  && Flatten(pieces) == old(Flatten(source.fragments))
                  && if source.end.Failure? then
                       r == Err(SourceFailed) && Sends(before, unfinished)
                       && reader.Remaining() == old(reader.Remaining())
                     else if !Takes(before, whole) then
                       r == Err(SendFailure()) && Sends(before, whole) && reader.Remaining() == old(reader.Remaining())
                     else
                       && Sends(before, whole)
                       && Reply(r, reader.Remaining()) == TakeStatus(old(reader.Remaining()), Down())
    {
      pieces := [];
      ghost var before := reader.channel.sent;
      r := StartPush(path, mode);
      if r == Err(PathTooLong) {
        return;
      }
      ghost var head := PushHead(features.sendrecvV2, path, mode);
      r, pieces := SendPieces(r, before, head, source);
      if r.Err? {
        return;
      }
      r := SendBoth(r, before, head + Flatten(DataMessages(pieces)), Word(DONE, mtime));
      if r.Err? {
        return;
      }
      r := ReadStatus();
    }

    method StartPush(path: Data, mode: u32) returns (r: Result<(), SyncError>)
      modifies reader.channel`sent
      ensures !Pushable(features.sendrecvV2, path, mode) ==>
                r == Err(PathTooLong) && reader.channel.sent == old(reader.channel.sent)
      ensures Pushable(features.sendrecvV2, path, mode) ==>
                var head := PushHead(features.sendrecvV2, path, mode);
                && Sends(old(reader.channel.sent), head)
                && r == if Takes(old(reader.channel.sent), head) then Ok(()) else Err(SendFailure())
    {
      if features.sendrecvV2 {
        r := SendRequest(SND2, path);
        if r != Err(PathTooLong) {
          var flags := Word(SND2, mode);
          flags := flags + Le32(0);
          r := SendBoth(r, old(reader.channel.sent), Request(SND2, path), flags);
        }
      } else {
        r := SendRequest(SEND, ModeArgument(path, mode));
      }
    }

    /** The source as DATA messages behind `head`, unless the sending of that had failed already. */
    method SendPieces(started: Result<(), SyncError>, ghost before: Data, ghost head: Data, source: Framed.Source)
      returns (r: Result<(), SyncError>, ghost pieces: seq<Data>)
      requires source.Valid() && Sends(before, head)
      requires started == if Takes(before, head) then Ok(()) else Err(SendFailure())
      modifies reader.channel`sent, source
      ensures FullOrPart(pieces) && Flatten(pieces) <= old(Flatten(source.fragments))
      ensures Sends(before, head + Flatten(DataMessages(pieces)))
      ensures if Takes(before, head + Flatten(DataMessages(pieces))) then
                && Flatten(pieces) == old(Flatten(source.fragments))
                && r == if source.end.Failure? then Err(SourceFailed) else Ok(())
              else r == Err(SendFailure())
    {
      r, pieces := started, [];
      ghost var all := Flatten(source.fragments);
      assert head + [] == head;
      while r.Ok?
        invariant source.Valid() && Flatten(pieces) <= all && FullOrPart(pieces)
        invariant r.Ok? ==> Flatten(pieces) + Flatten(source.fragments) == all
        invariant Sends(before, head + Flatten(DataMessages(pieces)))
        invariant r == if Takes(before, head + Flatten(DataMessages(pieces))) then Ok(()) else Err(SendFailure())
        decreases r.Ok?, |Flatten(source.fragments)|
      {
        var piece, ok := source.Read(DATA_MAX);
        if !ok {
          return Err(SourceFailed), pieces;
        }
        if piece == [] {
          return;
        }
        var chunk := Word(DATA, |piece|);
        chunk := chunk + piece;
        MorePieces(pieces, piece, head);
        Regrouped(Flatten(pieces), piece, Flatten(source.fragments));
        r := SendBoth(r, before, head + Flatten(DataMessages(pieces)), chunk);
        pieces := pieces + [piece];
      }
    }
  }

  /** A running pull. `done` once it has ended or failed. */
  class PullStream {
    const client: Client
    var done: bool

    constructor (client: Client)
      ensures this.client == client && !done
    {
      this.client, done := client, false;
    }

    /** The next chunk; an error is yielded once and ends the stream. */
    method Next() returns (item: Option<Result<Data, SyncError>>)
      modifies this, client.reader, client.reader.channel`chunks
      ensures old(done) ==> item == None && done && client.reader.Remaining() == old(client.reader.Remaining())
      ensures !old(done) ==>
                var t := TakeData(old(client.reader.Remaining()), client.Down());
                && client.reader.Remaining() == t.rest
                && match t.result
                   case Err(e) => item == Some(Err(e)) && done
                   case Ok(None) => item == None && done
                   case Ok(Some(chunk)) => item == Some(Ok(chunk)) && !done
    {
      if done {
        return None;
      }
      var r := client.NextData();
      match r {
        case Err(e) =>
          done := true;
          return Some(Err(e));
        case Ok(None) =>
          done := true;
          return None;
        case Ok(Some(chunk)) => return Some(Ok(chunk));
      }
    }

    /** The stream polled until it ends. */
    method Collect() returns (pulled: Pulled)
      modifies this, client.reader, client.reader.channel`chunks
      ensures done
      ensures if old(done) then
                pulled == Pulled([], None) && client.reader.Remaining() == old(client.reader.Remaining())
              else PullReply(pulled, client.reader.Remaining())
                   == TakePull(old(client.reader.Remaining()), client.Down(), [])
    {
      ghost var whole := TakePull(client.reader.Remaining(), client.Down(), []);
      var chunks: seq<Data> := [];
      while true
        invariant old(done) ==> done && chunks == [] && client.reader.Remaining() == old(client.reader.Remaining())
        invariant !old(done) ==> !done && TakePull(client.reader.Remaining(), client.Down(), chunks) == whole
        decreases |client.reader.Remaining()|
      {
        TakeDataConsumes(client.reader.Remaining(), client.Down());
        var item := Next();
        match item {
          case None => return Pulled(chunks, None);
          case Some(Err(e)) => return Pulled(chunks, Some(e));
          case Some(Ok(chunk)) => chunks := chunks + [chunk];
        }
      }
    }
  }

  /** No piece is empty or larger than one chunk. */
  predicate FullOrPart(pieces: seq<Data>) {
    forall k :: 0 <= k < |pieces| ==> 0 < |pieces[k]| <= DATA_MAX
  }

  function PullBytes(v2: bool, path: Data): Data
    requires |path| <= U32_MAX
  {
    if v2 then Request(RCV2, path) + Word(RCV2, 0) else Request(RECV, path)
  }

  lemma {:induction false} DataMessagesMore(pieces: seq<Data>, piece: Data)
    requires |piece| <= U32_MAX
    ensures DataMessages(pieces + [piece]) == DataMessages(pieces) + [Word(DATA, |piece|) + piece]
    decreases |pieces|
  {
    if pieces == [] {
      assert [piece][1..] == [] && [] + [piece] == [piece];
      assert DataMessages([piece]) == [Word(DATA, |piece|) + piece] + DataMessages([]);
    } else {
      assert (pieces + [piece])[1..] == pieces[1..] + [piece];
      DataMessagesMore(pieces[1..], piece);
    }
  }

  lemma OneMore(chunks: seq<Data>, chunk: Data)
    ensures Flatten(chunks + [chunk]) == Flatten(chunks) + chunk
  {
    OneChunk(chunk);
    FlattenAppend(chunks, [chunk]);
  }

  lemma MorePieces(pieces: seq<Data>, piece: Data, before: Data)
    requires |piece| <= U32_MAX
    ensures Flatten(pieces + [piece]) == Flatten(pieces) + piece
    ensures before + Flatten(DataMessages(pieces)) + (Word(DATA, |piece|) + piece)
            == before + Flatten(DataMessages(pieces + [piece]))
  {
    var message := Word(DATA, |piece|) + piece;
    OneMore(pieces, piece);
    DataMessagesMore(pieces, piece);
    OneMore(DataMessages(pieces), message);
    Regrouped(before, Flatten(DataMessages(pieces)), message);
  }

  lemma OneChunk(b: Data)
    ensures Flatten([b]) == b
  {
    assert b + Flatten([]) == b;
  }
}
