/** Machine integers, byte strings and little-endian words. */
module Bytes {

  type byte = x: int | 0 <= x < 0x100
  type u32 = x: int | 0 <= x < 0x1_0000_0000
  type u64 = x: int | 0 <= x < 0x1_0000_0000_0000_0000
  type i64 = x: int | -0x8000_0000_0000_0000 <= x < 0x8000_0000_0000_0000

  type Data = seq<byte>

  const U32_MAX: u32 := 0xFFFF_FFFF

  datatype Option<+T> = None | Some(value: T)

  datatype Result<+T, +E> = Ok(value: T) | Err(error: E)

  /** The bytes of a text of ASCII characters. */
  function Ascii(s: string): (b: Data)
    requires forall k :: 0 <= k < |s| ==> s[k] as int < 0x80
    ensures |b| == |s|
  {
    seq(|s|, k requires 0 <= k < |s| => s[k] as int)
  }

  function Min(a: int, b: int): int {
    if a < b then a else b
  }

  function Zeros(n: nat): (b: Data)
    ensures |b| == n
  {
    seq(n, _ => 0)
  }

  /** What a medium that takes `limit` elements in all, if there is a limit, has of `s`. */
  function Capped<T>(s: seq<T>, limit: Option<nat>): seq<T> {
    if Fits(s, limit) then s else s[..limit.value]
  }

  predicate Fits<T>(s: seq<T>, limit: Option<nat>) {
    limit.None? || |s| <= limit.value
  }

  /** One piece after the other comes to the same as all at once, stopping at the first that fails. */
  lemma CappedTwice<T>(s: seq<T>, a: seq<T>, b: seq<T>, limit: Option<nat>)
    ensures s + a + b == s + (a + b)
    ensures Fits(s + a + b, limit) ==> Fits(s + a, limit)
    ensures !Fits(s + a, limit) ==> Capped(s + a, limit) == Capped(s + (a + b), limit)
  {
    if !Fits(s + a, limit) {
      assert (s + (a + b))[..limit.value] == (s + a)[..limit.value];
    }
  }

  /** `u32::to_le_bytes`. */
  function Le32(v: u32): (b: Data)
    ensures |b| == 4
  {
    [v % 0x100, v / 0x100 % 0x100, v / 0x1_0000 % 0x100, v / 0x100_0000]
  }

  /** `u32::from_le_bytes`. */
  function FromLe32(b: Data): u32
    requires |b| == 4
  {
    var b0: int, b1: int, b2: int, b3: int := b[0], b[1], b[2], b[3];
    b0 + 0x100 * b1 + 0x1_0000 * b2 + 0x100_0000 * b3
  }

  /** The bytes of a word, the lowest first. */
  lemma Le32IsLittleEndian(v: u32)
    ensures var b := Le32(v);
            var b0: int, b1: int, b2: int, b3: int := b[0], b[1], b[2], b[3];
            b0 + 256 * b1 + 65536 * b2 + 16777216 * b3 == v
  {
    assert v / 0x1_0000 == v / 0x100 / 0x100;
    assert v / 0x100_0000 == v / 0x1_0000 / 0x100;
  }

  lemma Le32RoundTrip(v: u32)
    ensures FromLe32(Le32(v)) == v
  {
    assert v / 0x1_0000 == v / 0x100 / 0x100;
    assert v / 0x100_0000 == v / 0x1_0000 / 0x100;
  }

  lemma FromLe32RoundTrip(b: Data)
    requires |b| == 4
    ensures Le32(FromLe32(b)) == b
  {
    var v, b1: int, b2: int, b3: int := FromLe32(b), b[1], b[2], b[3];
    assert v / 0x100 == b1 + 0x100 * b2 + 0x1_0000 * b3;
    assert v / 0x1_0000 == b2 + 0x100 * b3;
    assert v / 0x100_0000 == b3;
  }

  /** The four bytes at offset `at`, read as a little-endian word. */
  function U32At(b: Data, at: nat): u32
    requires at + 4 <= |b|
  {
    FromLe32(b[at..at + 4])
  }

  // Division.

  lemma AtLeastOnce(m: int, d: int)
    requires m > 0
    ensures (d > 0 ==> m * d >= m) && (d < 0 ==> m * d <= -m)
  {
    if d > 0 {
      assert m * (d - 1) >= 0;
    } else if d < 0 {
      assert m * (-d - 1) >= 0;
    }
  }

  lemma ModIs(x: int, m: int, q: int, r: nat)
    requires m > 0 && x == m * q + r && r < m
    ensures x % m == r && x / m == q
  {
    var d := x / m - q;
    assert m * d == r - x % m;
    AtLeastOnce(m, d);
  }

  // Sequences.

  function Flatten(chunks: seq<Data>): Data {
    if chunks == [] then [] else chunks[0] + Flatten(chunks[1..])
  }

  lemma Regrouped<T>(a: seq<T>, b: seq<T>, c: seq<T>)
    ensures a + (b + c) == a + b + c
  {
  }

  lemma FourRegrouped<T>(a: seq<T>, b: seq<T>, c: seq<T>, d: seq<T>)
    ensures a + (b + c + d) == a + b + c + d
  {
  }

  lemma FlattenFirst(first: Data, more: seq<Data>, rest: Data)
    ensures Flatten([first] + more) + rest == first + (Flatten(more) + rest)
  {
    assert ([first] + more)[1..] == more;
  }

  lemma {:induction false} FlattenAppend(a: seq<Data>, b: seq<Data>)
    ensures Flatten(a + b) == Flatten(a) + Flatten(b)
  {
    if a == [] {
      assert a + b == b;
    } else {
      FlattenAppend(a[1..], b);
      assert (a + b)[0] == a[0] && (a + b)[1..] == a[1..] + b;
      Regrouped(a[0], Flatten(a[1..]), Flatten(b));
    }
  }
}
