/** The device side of the `sync:` service: a state machine that takes whole requests off the front
    of a buffer. The file system is left open; so is the wording of two error messages. */
module SyncDevice {
  import opened Bytes
  import opened SyncCodec
  import DeviceEngine

  datatype FileSystem<!F> = FileSystem(
    stat: (F, Data) -> Option<Stat>,
    list: (F, Data) -> Option<seq<File>>,
    read: (F, Data) -> Option<Data>,
    write: (F, Data, u32, u32, Data) -> Result<F, Data>,
    openFailed: Data -> Data,
    unknownRequest: Data -> Data)

  datatype File = File(name: Data, stat: Stat)

  datatype State =
    | Idle
    | Receiving(path: Data, mode: u32, data: Data)
    | AwaitRecvSetup(path: Data)
    | AwaitSendSetup(path: Data)

  datatype Device<F> = Device(fs: F, buffer: Data, state: State, done: bool)

  const EMPTY_STAT := Stat(0, 0, 0, None, None)
  const MISSING_STAT := Stat(0, 0, 0, Some(2), None)
  const DEFAULT_MODE: u32 := 0x1A4
  const COMMA: byte := 0x2C
  const PLUS: byte := 0x2B

  // Decimal numbers.

  predicate Digit(b: byte) {
    0x30 <= b <= 0x39
  }

  predicate AllDigits(s: Data) {
    forall k :: 0 <= k < |s| ==> Digit(s[k])
  }

  function Decimal(n: nat): (s: Data)
    ensures s != []
  {
    if n < 10 then [0x30 + n] else Decimal(n / 10) + [0x30 + n % 10]
  }

  function DecimalValue(s: Data): int {
    if s == [] then 0
    else
      var last: int := s[|s| - 1];
      10 * DecimalValue(s[..|s| - 1]) + (last - 0x30)
  }

  /** `parse::<u32>`: digits after at most one plus sign, none on overflow. */
  function ParseU32(s: Data): Option<u32> {
    var digits := if s != [] && s[0] == PLUS then s[1..] else s;
    if digits == [] || !AllDigits(digits) then None
    else if 0 <= DecimalValue(digits) <= U32_MAX then Some(DecimalValue(digits))
    else None
  }

  lemma {:induction false} DecimalRoundTrip(n: nat)
    ensures AllDigits(Decimal(n)) && DecimalValue(Decimal(n)) == n
  {
    var s := Decimal(n);
    if n < 10 {
      assert s[..0] == [];
    } else {
      DecimalRoundTrip(n / 10);
      assert s[..|s| - 1] == Decimal(n / 10);
    }
  }

  datatype Target = Target(file: Data, mode: u32)

  /** The file and mode of a `path,mode` argument: split at the last comma. */
  function TargetOf(arg: Data, at: nat): Target
    requires at <= |arg|
    decreases at
  {
    if at == 0 then Target(arg, DEFAULT_MODE)
    else if arg[at - 1] == COMMA then
      var mode := ParseU32(arg[at..]);
      Target(arg[..at - 1], if mode.Some? then mode.value else DEFAULT_MODE)
    else TargetOf(arg, at - 1)
  }

  lemma {:induction false} TargetSkips(arg: Data, at: nat, comma: nat)
    requires comma < at <= |arg| && arg[comma] == COMMA
    requires forall k :: comma < k < at ==> arg[k] != COMMA
    ensures TargetOf(arg, at) == TargetOf(arg, comma + 1)
    decreases at
  {
    if comma + 1 < at {
      TargetSkips(arg, at - 1, comma);
    }
  }

  /** A path and a mode are told apart whatever commas the path has. */
  lemma TargetRoundTrip(path: Data, mode: u32)
    ensures var arg := path + [COMMA] + Decimal(mode); TargetOf(arg, |arg|) == Target(path, mode)
  {
    var arg := path + [COMMA] + Decimal(mode);
    DecimalRoundTrip(mode);
    assert arg[|path|] == COMMA && arg[..|path|] == path && arg[|path| + 1..] == Decimal(mode);
    forall k | |path| < k < |arg| ensures arg[k] != COMMA {
      assert Digit(Decimal(mode)[k - |path| - 1]);
    }
    TargetSkips(arg, |arg|, |path|);
    assert Digit(Decimal(mode)[0]);
  }

  // Replies.

  /** A failure: its message's length as 32 bits can say it, and the message. */
  function Fail(message: Data): Data {
    Word(FAIL, |message| % 0x1_0000_0000) + message
  }

  function StatReply(head: Id, stat: Option<Stat>): Data {
    if head == STAT then StatBytesV1(STAT, if stat.Some? then stat.value else EMPTY_STAT)
    else StatBytesV2(head, if stat.Some? then stat.value else MISSING_STAT)
  }

  function EntryReply(v2: bool, f: File): Data {
    (if v2 then StatBytesV2(DNT2, f.stat) else StatBytesV1(DENT, f.stat))
    + Le32(|f.name| % 0x1_0000_0000) + f.name
  }

  function EntryReplies(v2: bool, files: seq<File>): seq<Data> {
    if files == [] then [] else [EntryReply(v2, files[0])] + EntryReplies(v2, files[1..])
  }

  function ListReply(v2: bool, files: seq<File>): seq<Data> {
    EntryReplies(v2, files) + [IdBytes(DONE) + Zeros((if v2 then DENT_V2_LEN else DENT_V1_LEN) - 4)]
  }

  /** `chunks(DATA_MAX)`. */
  function Chunks(data: Data): seq<Data> {
    DeviceEngine.NonEmpty(DeviceEngine.Pieces(data, DATA_MAX))
  }

  function DataMessages(chunks: seq<Data>): seq<Data> {
    if chunks == [] then [] else [Word(DATA, |chunks[0]| % 0x1_0000_0000) + chunks[0]] + DataMessages(chunks[1..])
  }

  function RecvReply<F>(fs: FileSystem<F>, f: F, path: Data): seq<Data> {
    var data := fs.read(f, path);
    if data.None? then [Fail(fs.openFailed(path))]
    else DataMessages(Chunks(data.value)) + [Word(DONE, 0)]
  }

  // The state machine.

  datatype Answer = Answer(state: State, replies: seq<Data>)

  function AnswerRequest<F>(fs: FileSystem<F>, f: F, head: Data, path: Data): Answer {
    if head == IdBytes(STAT) then Answer(Idle, [StatReply(STAT, fs.stat(f, path))])
    else if head == IdBytes(STA2) then Answer(Idle, [StatReply(STA2, fs.stat(f, path))])
    else if head == IdBytes(LST2) then Answer(Idle, [StatReply(LST2, fs.stat(f, path))])
    else if head == IdBytes(LIST) || head == IdBytes(LIS2) then
      var files := fs.list(f, path);
      Answer(Idle, ListReply(head == IdBytes(LIS2), if files.Some? then files.value else []))
    else if head == IdBytes(RECV) then Answer(Idle, RecvReply(fs, f, path))
    else if head == IdBytes(RCV2) then Answer(AwaitRecvSetup(path), [])
    else if head == IdBytes(SEND) then
      var target := TargetOf(path, |path|);
      Answer(Receiving(target.file, target.mode, []), [])
    else if head == IdBytes(SND2) then Answer(AwaitSendSetup(path), [])
    else Answer(Idle, [Fail(fs.unknownRequest(head))])
  }

  datatype Turn<F> = Turn(device: Device<F>, replies: seq<Data>, progressed: bool)

  /** One attempt to take a request off the buffer. */
  function Step<F>(fs: FileSystem<F>, d: Device<F>): Turn<F> {
    var b := d.buffer;
    if |b| < 8 then Turn(d, [], false)
    else
      var head, arg := b[..4], U32At(b, 4);
      match d.state
      case AwaitRecvSetup(path) =>
        Turn(d.(buffer := b[8..], state := Idle), RecvReply(fs, d.fs, path), true)
      case AwaitSendSetup(path) =>
        if |b| < 12 then Turn(d, [], false)
        else Turn(d.(buffer := b[12..], state := Receiving(path, arg, [])), [], true)
      case Receiving(path, mode, data) =>
        if head == IdBytes(DONE) then
          match fs.write(d.fs, path, mode, arg, data)
          case Ok(f) => Turn(Device(f, b[8..], Idle, d.done), [Word(OKAY, 0)], true)
          case Err(message) => Turn(d.(buffer := b[8..], state := Idle), [Fail(message)], true)
        else if head != IdBytes(DATA) || |b| < 8 + arg then Turn(d, [], false)
        else Turn(d.(buffer := b[8 + arg..], state := Receiving(path, mode, data + b[8..8 + arg])), [], true)
      case Idle =>
        if head == IdBytes(QUIT) then Turn(d.(done := true), [], false)
        else if |b| < 8 + arg then Turn(d, [], false)
        else
          var a := AnswerRequest(fs, d.fs, head, b[8..8 + arg]);
          Turn(d.(buffer := b[8 + arg..], state := a.state), a.replies, true)
  }

  lemma StepConsumes<F>(fs: FileSystem<F>, d: Device<F>)
    ensures Step(fs, d).progressed ==> |Step(fs, d).device.buffer| < |d.buffer|
  {
  }

  datatype Settled<F> = Settled(device: Device<F>, replies: seq<Data>)

  /** Steps until one makes no progress. */
  function Settle<F>(fs: FileSystem<F>, d: Device<F>): Settled<F>
    decreases |d.buffer|
  {
    var t := Step(fs, d);
    if !t.progressed then Settled(t.device, t.replies)
    else
      StepConsumes(fs, d);
      var more := Settle(fs, t.device);
      Settled(more.device, t.replies + more.replies)
  }

  function After<F>(out: seq<Data>, s: Settled<F>): Settled<F> {
    Settled(s.device, out + s.replies)
  }

  /** One step of settling. */
  lemma SettleStep<F>(fs: FileSystem<F>, d: Device<F>, out: seq<Data>)
    ensures var t := Step(fs, d);
            After(out, Settle(fs, d)) ==
            if t.progressed then After(out + t.replies, Settle(fs, t.device)) else Settled(t.device, out + t.replies)
  {
    var t := Step(fs, d);
    if t.progressed {
      var more := Settle(fs, t.device).replies;
      Regrouped(out, t.replies, more);
    }
  }

  function Extended<F>(d: Device<F>, data: Data): Device<F> {
    d.(buffer := d.buffer + data)
  }

  /** The handler of a service stream. */
  class SyncHandler<F> {
    const files: FileSystem<F>
    var fs: F
    var buffer: Data
    var state: State
    var done: bool

    constructor (files: FileSystem<F>, fs: F)
      ensures this.files == files && Value() == Device(fs, [], Idle, false)
    {
      this.files, this.fs, buffer, state, done := files, fs, [], Idle, false;
    }

    ghost function Value(): Device<F>
      reads this
    {
      Device(fs, buffer, state, done)
    }

    /** Serves a request in the idle state, `head` and `path` having been taken off the buffer. */
    method Request(head: Data, path: Data) returns (replies: seq<Data>)
      requires state == Idle
      modifies `state
      ensures var a := AnswerRequest(files, fs, head, path); state == a.state && replies == a.replies
    {
      if head == IdBytes(STAT) || head == IdBytes(STA2) || head == IdBytes(LST2) {
        var stat := files.stat(fs, path);
        if head == IdBytes(STAT) {
          var reply := EncodeStatV1(STAT, if stat.Some? then stat.value else EMPTY_STAT);
          return [reply];
        }
        var reply := EncodeStatV2(if head == IdBytes(STA2) then STA2 else LST2,
                                  if stat.Some? then stat.value else MISSING_STAT);
        return [reply];
      }
      if head == IdBytes(LIST) || head == IdBytes(LIS2) {
        var files := files.list(fs, path);
        replies := ListDirectory(head == IdBytes(LIS2), if files.Some? then files.value else []);
        return;
      }
      replies := [];
      if head == IdBytes(RECV) {
        replies := RecvReply(files, fs, path);
      } else if head == IdBytes(RCV2) {
        state := AwaitRecvSetup(path);
      } else if head == IdBytes(SEND) {
        var target := TargetOf(path, |path|);
        state := Receiving(target.file, target.mode, []);
      } else if head == IdBytes(SND2) {
        state := AwaitSendSetup(path);
      } else {
        replies := [Fail(files.unknownRequest(head))];
      }
    }

    static method ListDirectory(v2: bool, files: seq<File>) returns (out: seq<Data>)
      ensures out == ListReply(v2, files)
    {
      out := [];
      for i := 0 to |files|
        invariant out + EntryReplies(v2, files[i..]) == EntryReplies(v2, files)
      {
        var message: Data;
        if v2 {
          message := EncodeStatV2(DNT2, files[i].stat);
        } else {
          message := EncodeStatV1(DENT, files[i].stat);
        }
        message := message + Le32(|files[i].name| % 0x1_0000_0000);
        message := message + files[i].name;
        assert files[i..][1..] == files[i + 1..];
        Regrouped(out, [message], EntryReplies(v2, files[i + 1..]));
        out := out + [message];
      }
      assert out + [] == out;
      out := out + [IdBytes(DONE) + Zeros((if v2 then DENT_V2_LEN else DENT_V1_LEN) - 4)];
    }

    method Write(path: Data, mode: u32, mtime: u32, data: Data) returns (reply: Data)
      modifies `fs
      ensures match files.write(old(fs), path, mode, mtime, data)
              case Ok(f) => fs == f && reply == Word(OKAY, 0)
              case Err(message) => fs == old(fs) && reply == Fail(message)
    {
      match files.write(fs, path, mode, mtime, data) {
        case Ok(f) =>
          fs := f;
          reply := Word(OKAY, 0);
        case Err(message) =>
          reply := Fail(message);
      }
    }

    method StepOnce() returns (replies: seq<Data>, progressed: bool)
      modifies this
      ensures Turn(Value(), replies, progressed) == Step(files, old(Value()))
    {
      if |buffer| < 8 {
        return [], false;
      }
      var head, arg := buffer[..4], U32At(buffer, 4);
      var previous := state;
      state := Idle;
      match previous {
        case AwaitRecvSetup(path) =>
          buffer := buffer[8..];
          return RecvReply(files, fs, path), true;
        case AwaitSendSetup(path) =>
          if |buffer| < 12 {
            state := previous;
            return [], false;
          }
          buffer := buffer[12..];
          state := Receiving(path, arg, []);
          return [], true;
        case Receiving(path, mode, data) =>
          if head == IdBytes(DONE) {
            buffer := buffer[8..];
            var reply := Write(path, mode, arg, data);
            return [reply], true;
          }
          if head != IdBytes(DATA) || |buffer| < 8 + arg {
            state := previous;
            return [], false;
          }
          state := Receiving(path, mode, data + buffer[8..8 + arg]);
          buffer := buffer[8 + arg..];
          return [], true;
        case Idle =>
          if head == IdBytes(QUIT) {
            done := true;
            return [], false;
          }
          if |buffer| < 8 + arg {
            return [], false;
          }
          var path := buffer[8..8 + arg];
          buffer := buffer[8 + arg..];
          replies := Request(head, path);
          progressed := true;
      }
    }

    /** Whatever was received before, new data makes the machine settle. */
    method OnData(data: Data) returns (out: seq<Data>)
      modifies this
      ensures Settled(Value(), out) == Settle(files, old(Extended(Value(), data)))
    {
      buffer := buffer + data;
      ghost var whole := Settle(files, Value());
      out := [];
      assert [] + whole.replies == whole.replies;
      while true
        invariant After(out, Settle(files, Value())) == whole
        decreases |buffer|
      {
        StepConsumes(files, Value());
        SettleStep(files, Value(), out);
        var replies, progressed := StepOnce();
        out := out + replies;
        if !progressed {
          return;
        }
      }
    }
  }
}
