/** Byte layouts of the `sync:` sub-protocol. */
module SyncCodec {
  import opened Bytes

  const DATA_MAX: u32 := 0x1_0000
  const STAT_V1_LEN := 16
  const STAT_V2_LEN := 72
  const DENT_V1_LEN := 20
  const DENT_V2_LEN := 76

  datatype Id =
    | LIST | LIS2 | DENT | DNT2 | STAT | STA2 | LST2 | RECV | RCV2 | SEND | SND2 | DATA | DONE | OKAY | FAIL | QUIT

  /** The four characters of an id. */
  function IdBytes(id: Id): (b: Data)
    ensures |b| == 4
  {
    match id
    case LIST => [0x4C, 0x49, 0x53, 0x54]
    case LIS2 => [0x4C, 0x49, 0x53, 0x32]
    case DENT => [0x44, 0x45, 0x4E, 0x54]
    case DNT2 => [0x44, 0x4E, 0x54, 0x32]
    case STAT => [0x53, 0x54, 0x41, 0x54]
    case STA2 => [0x53, 0x54, 0x41, 0x32]
    case LST2 => [0x4C, 0x53, 0x54, 0x32]
    case RECV => [0x52, 0x45, 0x43, 0x56]
    case RCV2 => [0x52, 0x43, 0x56, 0x32]
    case SEND => [0x53, 0x45, 0x4E, 0x44]
    case SND2 => [0x53, 0x4E, 0x44, 0x32]
    case DATA => [0x44, 0x41, 0x54, 0x41]
    case DONE => [0x44, 0x4F, 0x4E, 0x45]
    case OKAY => [0x4F, 0x4B, 0x41, 0x59]
    case FAIL => [0x46, 0x41, 0x49, 0x4C]
    case QUIT => [0x51, 0x55, 0x49, 0x54]
  }

  lemma IdsDiffer(a: Id, b: Id)
    requires IdBytes(a) == IdBytes(b)
    ensures a == b
  {
    var x, y := IdBytes(a), IdBytes(b);
    assert x[0] == y[0] && x[1] == y[1] && x[2] == y[2] && x[3] == y[3];
  }

  lemma Spelled(b: Data, s: string)
    requires |b| == |s| && forall k :: 0 <= k < |s| ==> s[k] as int < 0x80 && b[k] == s[k] as int
    ensures b == Ascii(s)
  {
  }

  /** An id is spelled with its four characters. */
  lemma IdIsItsName(id: Id)
    ensures IdBytes(id) == Ascii(match id
                            case LIST => "LIST"
                            case LIS2 => "LIS2"
                            case DENT => "DENT"
                            case DNT2 => "DNT2"
                            case STAT => "STAT"
                            case STA2 => "STA2"
                            case LST2 => "LST2"
                            case RECV => "RECV"
                            case RCV2 => "RCV2"
                            case SEND => "SEND"
                            case SND2 => "SND2"
                            case DATA => "DATA"
                            case DONE => "DONE"
                            case OKAY => "OKAY"
                            case FAIL => "FAIL"
                            case QUIT => "QUIT")
  {
    match id {
      case LIST => Spelled(IdBytes(id), "LIST");
      case LIS2 => Spelled(IdBytes(id), "LIS2");
      case DENT => Spelled(IdBytes(id), "DENT");
      case DNT2 => Spelled(IdBytes(id), "DNT2");
      case STAT => Spelled(IdBytes(id), "STAT");
      case STA2 => Spelled(IdBytes(id), "STA2");
      case LST2 => Spelled(IdBytes(id), "LST2");
      case RECV => Spelled(IdBytes(id), "RECV");
      case RCV2 => Spelled(IdBytes(id), "RCV2");
      case SEND => Spelled(IdBytes(id), "SEND");
      case SND2 => Spelled(IdBytes(id), "SND2");
      case DATA => Spelled(IdBytes(id), "DATA");
      case DONE => Spelled(IdBytes(id), "DONE");
      case OKAY => Spelled(IdBytes(id), "OKAY");
      case FAIL => Spelled(IdBytes(id), "FAIL");
      case QUIT => Spelled(IdBytes(id), "QUIT");
    }
  }

  datatype StatDetail = StatDetail(dev: u64, ino: u64, nlink: u32, uid: u32, gid: u32, atime: i64, ctime: i64)

  datatype Stat = Stat(mode: u32, size: u64, mtime: i64, error: Option<u32>, detail: Option<StatDetail>)

  datatype Entry = Entry(name: Data, mode: u32, size: u64, mtime: i64)

  const NO_DETAIL := StatDetail(0, 0, 0, 0, 0, 0, 0)

  function Word(id: Id, value: u32): (b: Data)
    ensures |b| == 8
  {
    IdBytes(id) + Le32(value)
  }

  function Request(id: Id, path: Data): Data
    requires |path| <= U32_MAX
  {
    Word(id, |path|) + path
  }

  /** Consecutive little-endian words. */
  function Words(ws: seq<u32>): (b: Data)
    ensures |b| == 4 * |ws|
  {
    if ws == [] then [] else Le32(ws[0]) + Words(ws[1..])
  }

  lemma {:induction false} WordsAt(ws: seq<u32>, k: nat)
    requires k < |ws|
    ensures U32At(Words(ws), 4 * k) == ws[k]
    decreases k
  {
    var b := Words(ws);
    if k == 0 {
      assert b[0..4] == Le32(ws[0]);
      Le32RoundTrip(ws[0]);
    } else {
      var rest := Words(ws[1..]);
      WordsAt(ws[1..], k - 1);
      assert b[4 * k..4 * k + 4] == rest[4 * (k - 1)..4 * (k - 1) + 4];
    }
  }

  lemma {:induction false} WordsMore(a: seq<u32>, b: seq<u32>)
    ensures Words(a + b) == Words(a) + Words(b)
    decreases |a|
  {
    if a == [] {
      assert a + b == b;
    } else {
      assert (a + b)[1..] == a[1..] + b;
      WordsMore(a[1..], b);
    }
  }

  function Low(v: u64): u32 {
    v % 0x1_0000_0000
  }

  function High(v: u64): u32 {
    v / 0x1_0000_0000
  }

  /** The two's complement pattern of a signed value. */
  function Pattern(v: i64): u64 {
    if v < 0 then v + 0x1_0000_0000_0000_0000 else v
  }

  function Signed(v: u64): i64 {
    if v >= 0x8000_0000_0000_0000 then v - 0x1_0000_0000_0000_0000 else v
  }

  function Le64(v: u64): (b: Data)
    ensures |b| == 8
  {
    Le32(Low(v)) + Le32(High(v))
  }

  function U64At(b: Data, at: nat): u64
    requires at + 8 <= |b|
  {
    var low: int, high: int := U32At(b, at), U32At(b, at + 4);
    low + 0x1_0000_0000 * high
  }

  function I64At(b: Data, at: nat): i64
    requires at + 8 <= |b|
  {
    Signed(U64At(b, at))
  }

  function SizeV1(size: u64): u32 {
    if size <= U32_MAX then size else U32_MAX
  }

  function TimeV1(mtime: i64): u32 {
    if 0 <= mtime <= U32_MAX then mtime else 0
  }

  function DetailOf(s: Stat): StatDetail {
    if s.detail.Some? then s.detail.value else NO_DETAIL
  }

  function ErrorOf(s: Stat): u32 {
    if s.error.Some? then s.error.value else 0
  }

  /** A short stat reply: the id, then mode, size and time as words. */
  function StatBytesV1(id: Id, s: Stat): (b: Data)
    ensures |b| == STAT_V1_LEN
  {
    IdBytes(id) + Words([s.mode, SizeV1(s.size), TimeV1(s.mtime)])
  }

  function OwnerWords(error: u32, d: StatDetail, mode: u32): (ws: seq<u32>)
    ensures |ws| == 9
  {
    [error, Low(d.dev), High(d.dev), Low(d.ino), High(d.ino), mode, d.nlink, d.uid, d.gid]
  }

  function SizeWords(size: u64, atime: u64, mtime: u64, ctime: u64): (ws: seq<u32>)
    ensures |ws| == 8
  {
    [Low(size), High(size), Low(atime), High(atime), Low(mtime), High(mtime), Low(ctime), High(ctime)]
  }

  function StatWordsV2(s: Stat): (ws: seq<u32>)
    ensures |ws| == 17
  {
    var d := DetailOf(s);
    OwnerWords(ErrorOf(s), d, s.mode) + SizeWords(s.size, Pattern(d.atime), Pattern(s.mtime), Pattern(d.ctime))
  }

  /** A long stat reply: the id, then seventeen words. */
  function StatBytesV2(id: Id, s: Stat): (b: Data)
    ensures |b| == STAT_V2_LEN
  {
    IdBytes(id) + Words(StatWordsV2(s))
  }

  lemma Appended(start: Data, ws: seq<u32>, more: seq<u32>)
    ensures start + Words(ws) + Words(more) == start + Words(ws + more)
  {
    WordsMore(ws, more);
  }

  lemma OneWord(w: u32)
    ensures Words([w]) == Le32(w)
  {
    assert Le32(w) + Words([]) == Le32(w);
    assert [w][1..] == [];
  }

  lemma TwoWords(v: u64)
    ensures Words([Low(v), High(v)]) == Le64(v)
  {
    OneWord(High(v));
    assert [Low(v), High(v)][1..] == [High(v)];
  }

  /** The buffer of a reply when `k` of its words have been appended. */
  ghost predicate Built(out: Data, start: Data, ws: seq<u32>, k: nat)
    requires k <= |ws|
  {
    out == start + Words(ws[..k])
  }

  lemma PutU32(out: Data, start: Data, ws: seq<u32>, k: nat, v: u32)
    requires k < |ws| && ws[k] == v && Built(out, start, ws, k)
    ensures Built(out + Le32(v), start, ws, k + 1)
  {
    Appended(start, ws[..k], [v]);
    OneWord(v);
    assert ws[..k] + [v] == ws[..k + 1];
  }

  lemma PutU64(out: Data, start: Data, ws: seq<u32>, k: nat, v: u64)
    requires k + 1 < |ws| && ws[k] == Low(v) && ws[k + 1] == High(v) && Built(out, start, ws, k)
    ensures Built(out + Le64(v), start, ws, k + 2)
  {
    Appended(start, ws[..k], [Low(v), High(v)]);
    TwoWords(v);
    assert ws[..k] + [Low(v), High(v)] == ws[..k + 2];
  }

  lemma BuiltWhole(out: Data, start: Data, ws: seq<u32>)
    ensures Built(start, start, ws, 0)
    ensures Built(out, start, ws, |ws|) ==> out == start + Words(ws)
  {
    assert start + Words([]) == start;
    assert ws[..0] == [] && ws[..|ws|] == ws;
  }

  method EncodeStatV1(id: Id, s: Stat) returns (out: Data)
    ensures out == StatBytesV1(id, s)
  {
    ghost var start, ws := IdBytes(id), [s.mode, SizeV1(s.size), TimeV1(s.mtime)];
    var size: u32 := if s.size <= U32_MAX then s.size else U32_MAX;
    var time: u32 := if 0 <= s.mtime <= U32_MAX then s.mtime else 0;
    out := IdBytes(id);
    BuiltWhole(out, start, ws);
    PutU32(out, start, ws, 0, s.mode);
    out := out + Le32(s.mode);
    PutU32(out, start, ws, 1, size);
    out := out + Le32(size);
    PutU32(out, start, ws, 2, time);
    out := out + Le32(time);
    BuiltWhole(out, start, ws);
  }

  method EncodeStatV2(id: Id, s: Stat) returns (out: Data)
    ensures out == StatBytesV2(id, s)
  {
    var d := if s.detail.Some? then s.detail.value else NO_DETAIL;
    out := IdBytes(id);
    out := PutOwner(out, if s.error.Some? then s.error.value else 0, d, s.mode);
    out := PutSizes(out, s.size, Pattern(d.atime), Pattern(s.mtime), Pattern(d.ctime));
    Appended(IdBytes(id), OwnerWords(ErrorOf(s), d, s.mode),
             SizeWords(s.size, Pattern(d.atime), Pattern(s.mtime), Pattern(d.ctime)));
  }

  /** The fields of a long reply up to the owner. */
  method PutOwner(start: Data, error: u32, d: StatDetail, mode: u32) returns (out: Data)
    ensures out == start + Words(OwnerWords(error, d, mode))
  {
    ghost var ws := OwnerWords(error, d, mode);
    out := start;
    BuiltWhole(out, start, ws);
    PutU32(out, start, ws, 0, error);
    out := out + Le32(error);
    PutU64(out, start, ws, 1, d.dev);
    out := out + Le64(d.dev);
    PutU64(out, start, ws, 3, d.ino);
    out := out + Le64(d.ino);
    PutU32(out, start, ws, 5, mode);
    out := out + Le32(mode);
    PutU32(out, start, ws, 6, d.nlink);
    out := out + Le32(d.nlink);
    PutU32(out, start, ws, 7, d.uid);
    out := out + Le32(d.uid);
    PutU32(out, start, ws, 8, d.gid);
    out := out + Le32(d.gid);
    BuiltWhole(out, start, ws);
  }

  /** The remaining fields, the times as bit patterns. */
  method PutSizes(start: Data, size: u64, atime: u64, mtime: u64, ctime: u64) returns (out: Data)
    ensures out == start + Words(SizeWords(size, atime, mtime, ctime))
  {
    ghost var ws := SizeWords(size, atime, mtime, ctime);
    out := start;
    BuiltWhole(out, start, ws);
    PutU64(out, start, ws, 0, size);
    out := out + Le64(size);
    PutU64(out, start, ws, 2, atime);
    out := out + Le64(atime);
    PutU64(out, start, ws, 4, mtime);
    out := out + Le64(mtime);
    PutU64(out, start, ws, 6, ctime);
    out := out + Le64(ctime);
    BuiltWhole(out, start, ws);
  }

  function StatV1(b: Data): Stat
    requires |b| >= STAT_V1_LEN
  {
    Stat(U32At(b, 4), U32At(b, 8), U32At(b, 12), None, None)
  }

  function StatV2(b: Data): Stat
    requires |b| >= STAT_V2_LEN
  {
    var d := StatDetail(U64At(b, 8), U64At(b, 16), U32At(b, 28), U32At(b, 32), U32At(b, 36), I64At(b, 48),
                        I64At(b, 64));
    Stat(U32At(b, 24), U64At(b, 40), I64At(b, 56), Some(U32At(b, 4)), Some(d))
  }

  // Round trips.

  predicate HasWord(b: Data, k: nat, w: u32) {
    4 * k + 4 <= |b| && U32At(b, 4 * k) == w
  }

  lemma InnerWord(start: Data, b: Data, after: Data, k: nat, w: u32)
    requires |start| == 4 && HasWord(b, k, w)
    ensures HasWord(start + b + after, k + 1, w)
  {
    var at := 4 * k;
    assert (start + b + after)[at + 4..at + 8] == b[at..at + 4];
  }

  lemma WordsHave(ws: seq<u32>, k: nat)
    requires k < |ws|
    ensures HasWord(Words(ws), k, ws[k])
  {
    WordsAt(ws, k);
  }

  lemma WordAfter(start: Data, ws: seq<u32>, rest: Data, k: nat)
    requires k < |ws| && |start| == 4
    ensures HasWord(start + Words(ws) + rest, k + 1, ws[k])
  {
    WordsHave(ws, k);
    InnerWord(start, Words(ws), rest, k, ws[k]);
  }

  lemma HalvesJoin(v: u64)
    ensures var low: int, high: int := Low(v), High(v); low + 0x1_0000_0000 * high == v
  {
  }

  lemma LongAfter(start: Data, ws: seq<u32>, rest: Data, k: nat, v: u64)
    requires k + 1 < |ws| && ws[k] == Low(v) && ws[k + 1] == High(v) && |start| == 4
    ensures U64At(start + Words(ws) + rest, 4 + 4 * k) == v
  {
    WordAfter(start, ws, rest, k);
    WordAfter(start, ws, rest, k + 1);
    HalvesJoin(v);
  }

  lemma PatternIsExact(v: i64)
    ensures Signed(Pattern(v)) == v
    ensures Pattern(v) as int == if v < 0 then v + 0x1_0000_0000_0000_0000 else v
  {
  }

  /** A short reply carries the mode, the size up to 32 bits, and the time if it is one of 32 bits. */
  lemma StatV1Layout(id: Id, s: Stat)
    ensures var b := StatBytesV1(id, s);
            && |b| == 16 && b[..4] == IdBytes(id) && U32At(b, 4) == s.mode
            && U32At(b, 8) == (if s.size <= 0xFFFF_FFFF then s.size else 0xFFFF_FFFF)
            && U32At(b, 12) == (if 0 <= s.mtime <= 0xFFFF_FFFF then s.mtime else 0)
  {
    StatV1RoundTrip(id, s, []);
    assert StatBytesV1(id, s) + [] == StatBytesV1(id, s);
  }

  /** A 64-bit value at its place, low word first; a negative one as its two's complement. */
  predicate LongAt(b: Data, at: nat, v: int) {
    && at + 8 <= |b|
    && var low: int, high: int := U32At(b, at), U32At(b, at + 4);
       low + 0x1_0000_0000 * high == if v < 0 then v + 0x1_0000_0000_0000_0000 else v
  }

  /** The 72 bytes of a long reply; an absent error is 0, an absent detail all zeros. */
  lemma StatV2Layout(id: Id, s: Stat)
    ensures var b := StatBytesV2(id, s);
            var d := if s.detail.Some? then s.detail.value else StatDetail(0, 0, 0, 0, 0, 0, 0);
            && |b| == 72 && b[..4] == IdBytes(id)
            && U32At(b, 4) == (if s.error.Some? then s.error.value else 0)
            && LongAt(b, 8, d.dev) && LongAt(b, 16, d.ino)
            && U32At(b, 24) == s.mode && U32At(b, 28) == d.nlink && U32At(b, 32) == d.uid && U32At(b, 36) == d.gid
            && LongAt(b, 40, s.size) && LongAt(b, 48, d.atime) && LongAt(b, 56, s.mtime) && LongAt(b, 64, d.ctime)
  {
    StatV2Words(id, s, []);
    StatV2Longs(id, s, []);
    StatV2Size(id, s, []);
    StatV2Patterns(id, s, []);
    assert StatBytesV2(id, s) + [] == StatBytesV2(id, s);
  }

  lemma StatV2Patterns(id: Id, s: Stat, rest: Data)
    ensures var b := StatBytesV2(id, s) + rest;
            && U64At(b, 48) == Pattern(DetailOf(s).atime) && U64At(b, 56) == Pattern(s.mtime)
            && U64At(b, 64) == Pattern(DetailOf(s).ctime)
  {
    var d, ws := DetailOf(s), StatWordsV2(s);
    LongAfter(IdBytes(id), ws, rest, 11, Pattern(d.atime));
    LongAfter(IdBytes(id), ws, rest, 13, Pattern(s.mtime));
    LongAfter(IdBytes(id), ws, rest, 15, Pattern(d.ctime));
  }

  /** What the reader of a short reply makes of it. */
  lemma StatV1RoundTrip(id: Id, s: Stat, rest: Data)
    ensures var b := StatBytesV1(id, s) + rest;
            && b[..4] == IdBytes(id)
            && StatV1(b) == Stat(s.mode, if s.size <= 0xFFFF_FFFF then s.size else 0xFFFF_FFFF,
                                 if 0 <= s.mtime <= 0xFFFF_FFFF then s.mtime else 0, None, None)
  {
    var ws := [s.mode, SizeV1(s.size), TimeV1(s.mtime)];
    WordAfter(IdBytes(id), ws, rest, 0);
    WordAfter(IdBytes(id), ws, rest, 1);
    WordAfter(IdBytes(id), ws, rest, 2);
  }

  lemma StatV2Words(id: Id, s: Stat, rest: Data)
    ensures var b := StatBytesV2(id, s) + rest;
            && U32At(b, 4) == ErrorOf(s) && U32At(b, 24) == s.mode && U32At(b, 28) == DetailOf(s).nlink
            && U32At(b, 32) == DetailOf(s).uid && U32At(b, 36) == DetailOf(s).gid
  {
    var ws := StatWordsV2(s);
    WordAfter(IdBytes(id), ws, rest, 0);
    WordAfter(IdBytes(id), ws, rest, 5);
    WordAfter(IdBytes(id), ws, rest, 6);
    WordAfter(IdBytes(id), ws, rest, 7);
    WordAfter(IdBytes(id), ws, rest, 8);
  }

  lemma StatV2Longs(id: Id, s: Stat, rest: Data)
    ensures var b := StatBytesV2(id, s) + rest;
            U64At(b, 8) == DetailOf(s).dev && U64At(b, 16) == DetailOf(s).ino
  {
    var d, ws := DetailOf(s), StatWordsV2(s);
    LongAfter(IdBytes(id), ws, rest, 1, d.dev);
    LongAfter(IdBytes(id), ws, rest, 3, d.ino);
  }

  lemma StatV2Size(id: Id, s: Stat, rest: Data)
    ensures U64At(StatBytesV2(id, s) + rest, 40) == s.size
  {
    LongAfter(IdBytes(id), StatWordsV2(s), rest, 9, s.size);
  }

  lemma StatV2Times(id: Id, s: Stat, rest: Data)
    ensures var b := StatBytesV2(id, s) + rest;
            && I64At(b, 48) == DetailOf(s).atime && I64At(b, 56) == s.mtime && I64At(b, 64) == DetailOf(s).ctime
  {
    var d := DetailOf(s);
    StatV2Patterns(id, s, rest);
    PatternIsExact(d.atime);
    PatternIsExact(s.mtime);
    PatternIsExact(d.ctime);
  }

  /** A long reply carries everything; an absent error reads as 0, an absent detail as zeros. */
  lemma StatV2RoundTrip(id: Id, s: Stat, rest: Data)
    ensures var b := StatBytesV2(id, s) + rest;
            && b[..4] == IdBytes(id)
            && StatV2(b) == Stat(s.mode, s.size, s.mtime, Some(ErrorOf(s)), Some(DetailOf(s)))
  {
    StatV2Words(id, s, rest);
    StatV2Longs(id, s, rest);
    StatV2Size(id, s, rest);
    StatV2Times(id, s, rest);
  }

  /** Both parts of an id-and-word message are recovered, and what follows it. */
  lemma WordRoundTrip(id: Id, value: u32, rest: Data)
    ensures var b := Word(id, value) + rest;
            b[..4] == IdBytes(id) && U32At(b, 4) == value && b[8..] == rest
  {
    assert (Word(id, value) + rest)[4..8] == Le32(value);
    Le32RoundTrip(value);
  }
}
