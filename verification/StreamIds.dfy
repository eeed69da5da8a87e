/** Local ids: a 32-bit counter that starts at 1 and skips 0 when it wraps. */
module StreamIds {
  import opened Bytes

  const IDS := 0xFFFF_FFFF

  /** The local id of the `k`-th registration, counting from 0. */
  function IdOf(k: nat): u32 {
    1 + k % IDS
  }

  /** What `next_id.fetch_add(1)` leaves in the counter. */
  function FetchAdd(counter: u32): u32 {
    (counter + 1) % 0x1_0000_0000
  }

  /** The id that `register` draws, and the counter it leaves: zero is drawn again. */
  function Draw(counter: u32): (u32, u32) {
    var next := FetchAdd(counter);
    if counter == 0 then (next, FetchAdd(next)) else (counter, next)
  }

  /** The counter after `k` registrations. */
  function CounterAfter(k: nat): u32 {
    if k == 0 then 1 else Draw(CounterAfter(k - 1)).1
  }

  lemma NextResidue(k: nat)
    ensures (k + 1) % IDS == if k % IDS == IDS - 1 then 0 else k % IDS + 1
  {
  }

  /** What one registration draws and leaves, `r` being its residue. */
  lemma Drawn(counter: u32, r: nat)
    requires r < IDS && (counter == 1 + r || (counter == 0 && r == 0))
    ensures Draw(counter).0 == 1 + r
    ensures Draw(counter).1 == if r == IDS - 1 then 0 else 2 + r
  {
  }

  /** Registration `k` draws `1 + k mod (2^32 - 1)`, never zero. */
  lemma {:induction false} DrawsIdOf(k: nat)
    ensures Draw(CounterAfter(k)).0 == IdOf(k)
    ensures CounterAfter(k) == if k > 0 && k % IDS == 0 then 0 else IdOf(k)
  {
    if k > 0 {
      DrawsIdOf(k - 1);
      NextResidue(k - 1);
      Drawn(CounterAfter(k - 1), (k - 1) % IDS);
    }
    Drawn(CounterAfter(k), k % IDS);
  }

  /** Two registrations share an id exactly when their distance is a multiple of `2^32 - 1`. */
  lemma IdsRepeat(j: nat, k: nat)
    requires j <= k
    ensures Draw(CounterAfter(j)).0 == Draw(CounterAfter(k)).0 <==> (k - j) % IDS == 0
  {
    DrawsIdOf(j);
    DrawsIdOf(k);
    SameResidue(j, k, k / IDS - j / IDS, k % IDS - j % IDS);
  }

  lemma SameResidue(j: nat, k: nat, q: int, d: int)
    requires j <= k && k - j == IDS * q + d && -IDS < d < IDS
    ensures (k - j) % IDS == 0 <==> d == 0
  {
    var n := k - j;
    if n % IDS == 0 {
      assert n == IDS * (n / IDS);
      assert d == IDS * (n / IDS - q);
    }
  }

  /** The first `2^32 - 1` registrations draw different ids. */
  lemma FirstIdsDiffer(j: nat, k: nat)
    requires j < k < IDS
    ensures IdOf(j) != IdOf(k)
  {
    ModIs(j, IDS, 0, j);
    ModIs(k, IDS, 0, k);
  }
}
