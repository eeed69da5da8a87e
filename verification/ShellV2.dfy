/** The `shell,v2:` framing, parsed from chunks of any size. */
module ShellV2 {
  import opened Bytes
  import opened Channel

  datatype FrameId = Stdin | Stdout | Stderr | Exit | CloseStdin | WindowSize

  datatype Frame = Frame(id: FrameId, data: Data)

  function IdByte(id: FrameId): byte {
    match id
    case Stdin => 0
    case Stdout => 1
    case Stderr => 2
    case Exit => 3
    case CloseStdin => 4
    case WindowSize => 5
  }

  function FromByte(b: byte): Option<FrameId> {
    if b == 0 then Some(Stdin)
    else if b == 1 then Some(Stdout)
    else if b == 2 then Some(Stderr)
    else if b == 3 then Some(Exit)
    else if b == 4 then Some(CloseStdin)
    else if b == 5 then Some(WindowSize)
    else None
  }

  /** None is the error for data longer than 32 bits can say. */
  function Encode(id: FrameId, data: Data): Option<Data> {
    if |data| > U32_MAX then None else Some([IdByte(id)] + Le32(|data|) + data)
  }

  /** The frames wholly contained in `b`, the bytes behind them, and whether these can still become
      a frame. */
  datatype Parsed = Parsed(frames: seq<Frame>, rest: Data, ok: bool)

  function ParseFrames(b: Data): Parsed
    decreases |b|
  {
    match FrameEnd(b)
    case None => Parsed([], b, !Stuck(b))
    case Some(end) =>
      var more := ParseFrames(b[end..]);
      Parsed([FirstFrame(b)] + more.frames, more.rest, more.ok)
  }

  /** Where the first frame of `b` ends, if it is there as a whole. */
  function FrameEnd(b: Data): (end: Option<nat>)
    ensures end.Some? ==> 5 <= end.value <= |b|
  {
    if |b| < 5 || FromByte(b[0]).None? then None
    else
      var end := 5 + U32At(b, 1) as nat;
      if |b| < end then None else Some(end)
  }

  /** No frame can begin here. */
  predicate Stuck(b: Data) {
    |b| >= 5 && FromByte(b[0]).None?
  }

  function FirstFrame(b: Data): Frame
    requires FrameEnd(b).Some?
  {
    Frame(FromByte(b[0]).value, b[5..FrameEnd(b).value])
  }

  /** `frames` have been taken, and `buffer` is left to parse. */
  predicate Ahead(whole: Parsed, frames: seq<Frame>, buffer: Data) {
    var more := ParseFrames(buffer);
    whole == Parsed(frames + more.frames, more.rest, more.ok)
  }

  lemma TakeOne(whole: Parsed, frames: seq<Frame>, buffer: Data, id: FrameId, len: nat)
    requires Ahead(whole, frames, buffer)
    requires |buffer| >= 5 + len && FromByte(buffer[0]) == Some(id) && FromLe32(buffer[1..5]) == len
    ensures Ahead(whole, frames + [Frame(id, buffer[5..5 + len])], buffer[5 + len..])
  {
    var more := ParseFrames(buffer[5 + len..]);
    assert FrameEnd(buffer) == Some(5 + len);
    Regrouped(frames, [Frame(id, buffer[5..5 + len])], more.frames);
  }

  lemma TakeNone(whole: Parsed, frames: seq<Frame>, buffer: Data)
    requires Ahead(whole, frames, buffer) && FrameEnd(buffer).None?
    ensures whole == Parsed(frames, buffer, !Stuck(buffer))
  {
    assert frames + [] == frames;
  }

  class Parser {
    var buffer: Data

    constructor ()
      ensures buffer == []
    {
      buffer := [];
    }

    /** None is the error for an unknown frame id; frames found before it in the same call are lost. */
    method Push(bytes: Data) returns (r: Option<seq<Frame>>)
      modifies this
      ensures var p := ParseFrames(old(buffer) + bytes);
              buffer == p.rest && r == if p.ok then Some(p.frames) else None
    {
      buffer := buffer + bytes;
      ghost var whole := ParseFrames(buffer);
      var frames: seq<Frame> := [];
      assert [] + whole.frames == whole.frames;
      while |buffer| >= 5
        invariant Ahead(whole, frames, buffer)
        decreases |buffer|
      {
        var id := FromByte(buffer[0]);
        if id.None? {
          TakeNone(whole, frames, buffer);
          return None;
        }
        var len: nat := FromLe32(buffer[1..5]);
        if |buffer| < 5 + len {
          break;
        }
        TakeOne(whole, frames, buffer, id.value, len);
        frames := frames + [Frame(id.value, buffer[5..5 + len])];
        buffer := buffer[5 + len..];
      }
      TakeNone(whole, frames, buffer);
      return Some(frames);
    }

    method Pending() returns (n: nat)
      ensures n == |buffer|
    {
      n := |buffer|;
    }
  }

  lemma FrameEndStays(a: Data, c: Data)
    requires FrameEnd(a).Some?
    ensures FrameEnd(a + c) == FrameEnd(a) && FirstFrame(a + c) == FirstFrame(a)
    ensures var end := FrameEnd(a).value; (a + c)[end..] == a[end..] + c
  {
    assert (a + c)[1..5] == a[1..5];
  }

  function Before(f: Frame, p: Parsed): Parsed {
    p.(frames := [f] + p.frames)
  }

  /** A parse that goes on with `c`: an error stays an error. */
  function Continued(p: Parsed, c: Data): Parsed {
    if p.ok then
      var q := ParseFrames(p.rest + c);
      Parsed(p.frames + q.frames, q.rest, q.ok)
    else Parsed(p.frames, p.rest + c, false)
  }

  lemma BeforeContinued(f: Frame, p: Parsed, c: Data)
    ensures Continued(Before(f, p), c) == Before(f, Continued(p, c))
  {
    var q := ParseFrames(p.rest + c);
    assert [f] + p.frames + q.frames == [f] + (p.frames + q.frames);
  }

  lemma ParseIs(b: Data)
    ensures FrameEnd(b).Some? ==> ParseFrames(b) == Before(FirstFrame(b), ParseFrames(b[FrameEnd(b).value..]))
    ensures FrameEnd(b).None? ==> ParseFrames(b) == Parsed([], b, !Stuck(b))
  {
  }

  /** What arrives later does not change what has been parsed. */
  lemma {:induction false} ParseAppend(a: Data, c: Data)
    ensures ParseFrames(a + c) == Continued(ParseFrames(a), c)
    decreases |a|
  {
    ParseIs(a);
    if FrameEnd(a).Some? {
      var end := FrameEnd(a).value;
      FrameEndStays(a, c);
      ParseIs(a + c);
      ParseAppend(a[end..], c);
      BeforeContinued(FirstFrame(a), ParseFrames(a[end..]), c);
    } else if Stuck(a) {
      ParseIs(a + c);
    } else {
      assert [] + ParseFrames(a + c).frames == ParseFrames(a + c).frames;
    }
  }

  /** All frames that come out when the chunks are pushed one after the other; none on an error. */
  function PushAll(buffer: Data, chunks: seq<Data>): (Option<seq<Frame>>, Data)
    decreases |chunks|
  {
    if chunks == [] then (Some([]), buffer)
    else
      var p := ParseFrames(buffer + chunks[0]);
      var (more, rest) := PushAll(p.rest, chunks[1..]);
      (if p.ok && more.Some? then Some(p.frames + more.value) else None, rest)
  }

  /** The split makes no difference: pushed chunks yield the frames of the whole, and fail exactly if
      the whole contains an unknown id where a frame should begin. */
  lemma {:induction false} ChunksDoNotMatter(buffer: Data, chunks: seq<Data>)
    requires ParseFrames(buffer) == Parsed([], buffer, true)
    ensures var whole := ParseFrames(buffer + Flatten(chunks));
            PushAll(buffer, chunks) == (if whole.ok then Some(whole.frames) else None, whole.rest)
    decreases |chunks|
  {
    if chunks == [] {
      assert buffer + Flatten(chunks) == buffer;
    } else {
      var p := ParseFrames(buffer + chunks[0]);
      assert buffer + Flatten(chunks) == buffer + chunks[0] + Flatten(chunks[1..]);
      ParseAppend(buffer + chunks[0], Flatten(chunks[1..]));
      if p.ok {
        RestIsShort(buffer + chunks[0]);
        ChunksDoNotMatter(p.rest, chunks[1..]);
      } else {
        StuckStays(p.rest, chunks[1..]);
        FailedIsStuck(buffer + chunks[0]);
      }
    }
  }

  lemma {:induction false} RestIsShort(b: Data)
    requires ParseFrames(b).ok
    ensures ParseFrames(ParseFrames(b).rest) == Parsed([], ParseFrames(b).rest, true)
    decreases |b|
  {
    if FrameEnd(b).Some? {
      RestIsShort(b[FrameEnd(b).value..]);
    }
  }

  /** Once a push has failed every later push fails, and nothing is taken from the buffer. */
  lemma {:induction false} StuckStays(buffer: Data, chunks: seq<Data>)
    ensures Stuck(buffer) ==>
              PushAll(buffer, chunks) == (if chunks == [] then Some([]) else None, buffer + Flatten(chunks))
    decreases |chunks|
  {
    if chunks == [] {
      assert buffer + Flatten(chunks) == buffer;
    } else {
      StuckStays(buffer + chunks[0], chunks[1..]);
      assert buffer + Flatten(chunks) == buffer + chunks[0] + Flatten(chunks[1..]);
    }
  }

  lemma {:induction false} FailedIsStuck(b: Data)
    requires !ParseFrames(b).ok
    ensures Stuck(ParseFrames(b).rest)
    decreases |b|
  {
    if FrameEnd(b).Some? {
      FailedIsStuck(b[FrameEnd(b).value..]);
    }
  }

  function EncodeAll(frames: seq<Frame>): Data
    requires AllFit(frames)
  {
    if frames == [] then [] else Encode(frames[0].id, frames[0].data).value + EncodeAll(frames[1..])
  }

  predicate AllFit(frames: seq<Frame>) {
    forall k :: 0 <= k < |frames| ==> |frames[k].data| <= U32_MAX
  }

  /** Encoded frames parse to themselves; of a frame cut short nothing is reported. */
  lemma {:induction false} FramesRoundTrip(frames: seq<Frame>, last: Frame, k: nat)
    requires AllFit(frames) && |last.data| <= U32_MAX && k < 5 + |last.data|
    ensures var cut := Encode(last.id, last.data).value[..k];
            ParseFrames(EncodeAll(frames) + cut) == Parsed(frames, cut, true)
  {
    var cut := Encode(last.id, last.data).value[..k];
    if frames == [] {
      assert EncodeAll(frames) + cut == cut;
      CutFrame(last, k);
    } else {
      var f, tail := frames[0], EncodeAll(frames[1..]) + cut;
      FramesRoundTrip(frames[1..], last, k);
      EncodedFrame(f, tail);
      Regrouped(Encode(f.id, f.data).value, EncodeAll(frames[1..]), cut);
      ParseIs(Encode(f.id, f.data).value + tail);
      assert [f] + frames[1..] == frames;
    }
  }

  lemma CutFrame(f: Frame, k: nat)
    requires |f.data| <= U32_MAX && k < 5 + |f.data|
    ensures var cut := Encode(f.id, f.data).value[..k]; ParseFrames(cut) == Parsed([], cut, true)
  {
    var whole := Encode(f.id, f.data).value;
    assert whole[1..5] == Le32(|f.data|);
    Le32RoundTrip(|f.data|);
    if k >= 5 {
      assert whole[..k][1..5] == whole[1..5];
    }
  }

  lemma EncodedFrame(f: Frame, tail: Data)
    requires |f.data| <= U32_MAX
    ensures var b := Encode(f.id, f.data).value + tail;
            FrameEnd(b) == Some(5 + |f.data|) && FirstFrame(b) == f && b[5 + |f.data|..] == tail
  {
    var b, end := Encode(f.id, f.data).value + tail, 5 + |f.data|;
    assert b[1..5] == Le32(|f.data|);
    Le32RoundTrip(|f.data|);
    assert b[5..end] == f.data && b[end..] == tail;
  }

  /** A frame is its number, the length of its data as a little-endian word, and the data. */
  lemma FrameText(id: FrameId, data: Data)
    ensures Encode(id, data) == if |data| > 0xFFFF_FFFF then None
                                else Some([match id
                                           case Stdin => 0
                                           case Stdout => 1
                                           case Stderr => 2
                                           case Exit => 3
                                           case CloseStdin => 4
                                           case WindowSize => 5] + Le32(|data|) + data)
  {
  }

  /** No other number is a frame's: with a larger one no frame can begin, once a header is there. */
  lemma OtherNumbers(b: Data)
    ensures forall n: byte, id :: FromByte(n) == Some(id) <==> n == IdByte(id)
    ensures Stuck(b) <==> |b| >= 5 && b[0] > 5
    ensures Stuck(b) ==> ParseFrames(b) == Parsed([], b, false)
  {
  }

  datatype ShellOutput = ShellOutput(stdout: Data, stderr: Data, exitCode: Option<byte>)

  const NO_OUTPUT := ShellOutput([], [], None)

  function Apply(out: ShellOutput, f: Frame): ShellOutput {
    match f.id
    case Stdout => out.(stdout := out.stdout + f.data)
    case Stderr => out.(stderr := out.stderr + f.data)
    case Exit => out.(exitCode := if f.data == [] then None else Some(f.data[0]))
    case _ => out
  }

  function ApplyAll(out: ShellOutput, frames: seq<Frame>): ShellOutput
    decreases |frames|
  {
    if frames == [] then out else ApplyAll(Apply(out, frames[0]), frames[1..])
  }

  lemma {:induction false} ApplyAppend(out: ShellOutput, a: seq<Frame>, b: seq<Frame>)
    ensures ApplyAll(out, a + b) == ApplyAll(ApplyAll(out, a), b)
    decreases |a|
  {
    if a == [] {
      assert a + b == b;
    } else {
      ApplyAppend(Apply(out, a[0]), a[1..], b);
      assert (a + b)[1..] == a[1..] + b;
    }
  }

  /** The frames with one id, concatenated. */
  function StreamOf(frames: seq<Frame>, id: FrameId): Data {
    if frames == [] then []
    else (if frames[0].id == id then frames[0].data else []) + StreamOf(frames[1..], id)
  }

  /** The last Exit frame's first byte, if there is an Exit frame at all. */
  function LastExit(frames: seq<Frame>, before: Option<byte>): Option<byte> {
    if frames == [] then before
    else
      LastExit(frames[1..],
        if !frames[0].id.Exit? then before else if frames[0].data == [] then None else Some(frames[0].data[0]))
  }

  /** Standard output and error come out whole and in order, and the last exit frame counts. */
  lemma {:induction false} OutputIsDemultiplexed(out: ShellOutput, frames: seq<Frame>)
    ensures ApplyAll(out, frames) ==
            ShellOutput(out.stdout + StreamOf(frames, Stdout), out.stderr + StreamOf(frames, Stderr),
                        LastExit(frames, out.exitCode))
    decreases |frames|
  {
    if frames == [] {
      assert out.stdout + [] == out.stdout && out.stderr + [] == out.stderr;
    } else {
      var f := frames[0];
      OutputIsDemultiplexed(Apply(out, f), frames[1..]);
      var outs := if f.id == Stdout then f.data else [];
      var errs := if f.id == Stderr then f.data else [];
      Regrouped(out.stdout, outs, StreamOf(frames[1..], Stdout));
      Regrouped(out.stderr, errs, StreamOf(frames[1..], Stderr));
      assert out.stdout + [] == out.stdout && out.stderr + [] == out.stderr;
    }
  }

  datatype CollectError = UnknownFrame | Down(error: ChannelError) | Trailing(bytes: nat)

  function Collected(stream: Data, failing: bool): Result<ShellOutput, CollectError> {
    var p := ParseFrames(stream);
    if !p.ok then Err(UnknownFrame)
    else if failing then Err(Down(ChannelDown))
    else if p.rest != [] then Err(Trailing(|p.rest|))
    else Ok(ApplyAll(NO_OUTPUT, p.frames))
  }

  lemma {:induction false} FramesBefore(frames: seq<Frame>, tail: Data)
    requires AllFit(frames)
    ensures var p := ParseFrames(tail);
            ParseFrames(EncodeAll(frames) + tail) == Parsed(frames + p.frames, p.rest, p.ok)
    decreases |frames|
  {
    var p := ParseFrames(tail);
    if frames == [] {
      assert EncodeAll(frames) + tail == tail && frames + p.frames == p.frames;
    } else {
      var f, more := frames[0], EncodeAll(frames[1..]) + tail;
      FramesBefore(frames[1..], tail);
      FrameBefore(f, more);
      Regrouped(Encode(f.id, f.data).value, EncodeAll(frames[1..]), tail);
      HeadAndRest(frames, p.frames);
    }
  }

  lemma FrameBefore(f: Frame, more: Data)
    requires |f.data| <= U32_MAX
    ensures ParseFrames(Encode(f.id, f.data).value + more) == Before(f, ParseFrames(more))
  {
    EncodedFrame(f, more);
    ParseIs(Encode(f.id, f.data).value + more);
  }

  lemma HeadAndRest(frames: seq<Frame>, more: seq<Frame>)
    requires frames != []
    ensures [frames[0]] + (frames[1..] + more) == frames + more
  {
  }

  /** What collecting makes of encoded frames and `k` bytes of a further one: the outputs and the last
      exit code if all is whole; a failing channel counts before bytes left over. A number that is no
      frame's is an error whatever came before it and comes after it. */
  lemma CollectedFrames(frames: seq<Frame>, last: Frame, k: nat, other: Data, failing: bool)
    requires AllFit(frames) && |last.data| <= U32_MAX && k < 5 + |last.data|
    ensures Collected(EncodeAll(frames) + Encode(last.id, last.data).value[..k], failing) ==
            if failing then Err(Down(ChannelDown))
            else if k > 0 then Err(Trailing(k))
            else Ok(ShellOutput(StreamOf(frames, Stdout), StreamOf(frames, Stderr), LastExit(frames, None)))
    ensures |other| >= 5 && other[0] > 5 ==> Collected(EncodeAll(frames) + other, failing) == Err(UnknownFrame)
  {
    FramesRoundTrip(frames, last, k);
    OutputIsDemultiplexed(NO_OUTPUT, frames);
    assert [] + StreamOf(frames, Stdout) == StreamOf(frames, Stdout);
    assert [] + StreamOf(frames, Stderr) == StreamOf(frames, Stderr);
    OtherNumbers(other);
    FramesBefore(frames, other);
  }

  /** What `collect_v2` knows after the bytes `done`. */
  predicate SoFar(done: Data, buffer: Data, out: ShellOutput) {
    var p := ParseFrames(done);
    p.ok && p.rest == buffer && out == ApplyAll(NO_OUTPUT, p.frames)
  }

  /** One more chunk. */
  lemma OneMoreChunk(done: Data, buffer: Data, out: ShellOutput, data: Data)
    requires SoFar(done, buffer, out)
    ensures var p := ParseFrames(buffer + data);
            && ParseFrames(done + data).ok == p.ok
            && (p.ok ==> SoFar(done + data, p.rest, ApplyAll(out, p.frames)))
  {
    ParseAppend(done, data);
    ApplyAppend(NO_OUTPUT, ParseFrames(done).frames, ParseFrames(buffer + data).frames);
  }

  lemma FailureStays(done: Data, more: Data)
    requires !ParseFrames(done).ok
    ensures Collected(done + more, true) == Err(UnknownFrame) == Collected(done + more, false)
  {
    ParseAppend(done, more);
  }

  lemma AllCollected(done: Data, buffer: Data, out: ShellOutput)
    requires SoFar(done, buffer, out)
    ensures Collected(done, true) == Err(Down(ChannelDown))
    ensures Collected(done, false) == if buffer != [] then Err(Trailing(|buffer|)) else Ok(out)
  {
  }

  /** `ShellOutput` as its `apply` updates it. */
  class OutputBuffers {
    var stdout: Data
    var stderr: Data
    var exitCode: Option<byte>

    constructor ()
      ensures Value() == NO_OUTPUT
    {
      stdout, stderr, exitCode := [], [], None;
    }

    function Value(): ShellOutput
      reads this
    {
      ShellOutput(stdout, stderr, exitCode)
    }

    method ApplyFrame(f: Frame)
      modifies this
      ensures Value() == Apply(old(Value()), f)
    {
      match f.id {
        case Stdout => stdout := stdout + f.data;
        case Stderr => stderr := stderr + f.data;
        case Exit => exitCode := if f.data == [] then None else Some(f.data[0]);
        case _ =>
      }
    }
  }

  /** `collect_v2`: the result depends on the bytes of the channel only, not on their chunks. */
  method CollectV2(channel: Channel) returns (r: Result<ShellOutput, CollectError>)
    modifies channel
    ensures r == Collected(Flatten(old(channel.chunks)), channel.failing)
    ensures r.Ok? ==> channel.closed
  {
    ghost var all := Flatten(channel.chunks);
    var reader := new ChannelReader(channel);
    var parser := new Parser();
    var out := new OutputBuffers();
    ghost var done: Data := [];
    while true
      invariant reader.channel == channel && reader.buffer == []
      invariant all == done + Flatten(channel.chunks)
      invariant SoFar(done, parser.buffer, out.Value())
      decreases |channel.chunks|
    {
      var chunk := reader.NextChunk();
      if chunk.Err? || chunk.value.None? {
        assert done + Flatten([]) == done;
        AllCollected(done, parser.buffer, out.Value());
        if chunk.Err? {
          return Err(Down(chunk.error));
        }
        break;
      }
      var data := chunk.value.value;
      OneMoreChunk(done, parser.buffer, out.Value(), data);
      Regrouped(done, data, Flatten(channel.chunks));
      done := done + data;
      var found := parser.Push(data);
      if found.None? {
        FailureStays(done, Flatten(channel.chunks));
        return Err(UnknownFrame);
      }
      ApplyFrames(out, found.value);
    }
    channel.Close();
    var pending := parser.Pending();
    if pending != 0 {
      return Err(Trailing(pending));
    }
    return Ok(out.Value());
  }

  method ApplyFrames(out: OutputBuffers, frames: seq<Frame>)
    modifies out
    ensures out.Value() == ApplyAll(old(out.Value()), frames)
  {
    for i := 0 to |frames|
      invariant ApplyAll(old(out.Value()), frames) == ApplyAll(out.Value(), frames[i..])
    {
      assert frames[i..][1..] == frames[i + 1..];
      out.ApplyFrame(frames[i]);
    }
  }
}
