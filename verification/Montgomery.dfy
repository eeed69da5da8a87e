/** The Montgomery constant `-n0^-1 mod 2^32` by Newton iteration on wrapping 32-bit words. */
module Montgomery {
  import opened Bytes

  const WORD := 0x1_0000_0000
  const STEPS: nat := 5

  /** `inv.wrapping_mul(2.wrapping_sub(n0.wrapping_mul(inv)))`. */
  function NewtonStep(n0: u32, inv: u32): u32 {
    inv * ((2 - n0 * inv % WORD) % WORD) % WORD
  }

  function Newton(n0: u32, steps: nat): u32 {
    if steps == 0 then n0 else NewtonStep(n0, Newton(n0, steps - 1))
  }

  function Negate(x: u32): u32 {
    (0 - x) % WORD
  }

  /** `inv` is the inverse of `n0` modulo `m`: `n0 * inv = 1 + m * t`. */
  predicate InverseMod(n0: u32, inv: u32, m: nat)
    requires m > 0
  {
    (n0 * inv - 1) % m == 0
  }

  /** One step squares the modulus: the correct bits double. */
  lemma NewtonDoubles(n0: u32, inv: u32, m: nat, d: nat)
    requires m > 1 && WORD == m * m * d
    requires InverseMod(n0, inv, m)
    ensures InverseMod(n0, NewtonStep(n0, inv), m * m)
  {
    var x: int := n0 * inv;
    var t := (x - 1) / m;
    assert x == 1 + m * t;
    var low := x % WORD;
    var a := x / WORD;
    assert x == WORD * a + low;
    var w := (2 - low) % WORD;
    var b := (2 - low) / WORD;
    assert w == 2 - low - WORD * b;
    var next: int := NewtonStep(n0, inv);
    var c := inv * w / WORD;
    assert next == inv * w - WORD * c;
    Expand(n0, inv, x, m, t, a, b, c, d, w, next);
  }

  lemma Expand(n0: int, inv: int, x: int, m: int, t: int, a: int, b: int, c: int, d: int, w: int, next: int)
    requires m > 1 && WORD == m * m * d && x == n0 * inv && x == 1 + m * t
    requires w == 2 - x + WORD * (a - b) && next == inv * w - WORD * c
    ensures (n0 * next - 1) % (m * m) == 0
  {
    var k := x * (a - b) - n0 * c;
    Product(WORD, n0, inv, x, w, a - b, c, next);
    Square(m, t, x);
    Multiplied(WORD, m, d, k);
    assert n0 * next - 1 == m * m * (d * k) - m * m * (t * t);
    Subtracted(m * m, d * k, t * t);
    Multiple(m * m, d * k - t * t);
  }

  lemma Product(word: int, n0: int, inv: int, x: int, w: int, e: int, c: int, next: int)
    requires x == n0 * inv && w == 2 - x + word * e && next == inv * w - word * c
    ensures n0 * next == x * (2 - x) + word * (x * e - n0 * c)
  {
    assert n0 * next == n0 * (inv * w) - n0 * (word * c);
    assert n0 * (inv * w) == x * w;
    assert x * w == x * (2 - x) + x * (word * e);
    assert x * (word * e) == word * (x * e) && n0 * (word * c) == word * (n0 * c);
  }

  lemma Square(m: int, t: int, x: int)
    requires x == 1 + m * t
    ensures x * (2 - x) == 1 - m * m * (t * t)
  {
    assert x * (2 - x) == 1 - (m * t) * (m * t);
    assert (m * t) * (m * t) == m * m * (t * t);
  }

  lemma Multiplied(word: int, m: int, d: int, k: int)
    requires word == m * m * d
    ensures word * k == m * m * (d * k)
  {
  }

  lemma Subtracted(m: int, a: int, b: int)
    ensures m * a - m * b == m * (a - b)
  {
  }

  lemma Multiple(m: int, q: int)
    requires m > 0
    ensures (m * q) % m == 0
  {
    ModIs(m * q, m, q, 0);
  }

  /** Five steps from the trivial inverse modulo 2 reach all 32 bits. */
  lemma FiveSteps(n0: u32)
    requires n0 % 2 == 1
    ensures InverseMod(n0, Newton(n0, STEPS), WORD)
  {
    var h := n0 / 2;
    assert n0 * n0 - 1 == 2 * (2 * h * h + 2 * h);
    assert InverseMod(n0, Newton(n0, 0), 2);
    NewtonDoubles(n0, Newton(n0, 0), 2, 0x4000_0000);
    NewtonDoubles(n0, Newton(n0, 1), 4, 0x1000_0000);
    NewtonDoubles(n0, Newton(n0, 2), 16, 0x100_0000);
    NewtonDoubles(n0, Newton(n0, 3), 256, 0x1_0000);
    NewtonDoubles(n0, Newton(n0, 4), 0x1_0000, 1);
  }

  method N0Inv(n0: u32) returns (r: u32)
    ensures r == Negate(Newton(n0, STEPS))
    ensures n0 % 2 == 1 ==> n0 * r % WORD == WORD - 1
  {
    var inv := n0;
    for i := 0 to STEPS
      invariant inv == Newton(n0, i)
    {
      var product := n0 * inv % WORD;
      inv := inv * ((2 - product) % WORD) % WORD;
    }
    r := Negate(inv);
    if n0 % 2 == 1 {
      N0InvIsInverse(n0);
    }
  }

  lemma Negated(w: int, n0: int, inv: int, q: int)
    requires n0 * inv == 1 + w * q
    ensures n0 * (w - inv) == w * (n0 - q - 1) + (w - 1)
  {
    assert n0 * (w - inv) == n0 * w - n0 * inv;
    assert w * (n0 - q - 1) == w * n0 - w * q - w;
  }

  /** `n0 * n0inv = -1 mod 2^32` for odd `n0`. */
  lemma N0InvIsInverse(n0: u32)
    requires n0 % 2 == 1
    ensures n0 * Negate(Newton(n0, STEPS)) % WORD == WORD - 1
  {
    FiveSteps(n0);
    InverseNegated(n0, Newton(n0, STEPS));
  }

  lemma NegateIs(x: u32)
    requires x != 0
    ensures Negate(x) == WORD - x
  {
  }

  lemma InverseNegated(n0: u32, inv: u32)
    requires InverseMod(n0, inv, WORD)
    ensures n0 * Negate(inv) % WORD == WORD - 1
  {
    NegatedInverse(n0, inv);
    NegateIs(inv);
  }

  lemma NegatedInverse(n0: int, inv: int)
    requires 0 <= inv < WORD && (n0 * inv - 1) % WORD == 0
    ensures inv != 0 && n0 * (WORD - inv) % WORD == WORD - 1
  {
    var q := (n0 * inv - 1) / WORD;
    assert n0 * inv == 1 + WORD * q;
    assert inv == 0 ==> n0 * inv == 0;
    Negated(WORD, n0, inv, q);
    ModIs(n0 * (WORD - inv), WORD, n0 - q - 1, WORD - 1);
  }

  /** No other word has this property. */
  lemma N0InvIsUnique(n0: u32, v: u32)
    requires n0 % 2 == 1 && n0 * v % WORD == WORD - 1
    ensures v == Negate(Newton(n0, STEPS))
  {
    FiveSteps(n0);
    var inv: int := Newton(n0, STEPS);
    var x, y: int := n0 * inv, n0 * v;
    var q, p := (x - 1) / WORD, y / WORD;
    assert x == 1 + WORD * q;
    assert y == WORD * p + y % WORD;
    TwoWays(WORD, n0, inv, v, q, p);
    Complement(v, inv, (p + 1) * inv - v * q);
    assert inv == 0 ==> x == 0;
  }

  lemma Complement(v: u32, inv: u32, k: int)
    requires v + inv == WORD * k
    ensures inv != 0 ==> v == Negate(inv)
  {
  }

  /** `v * n0 * inv` in two ways. */
  lemma TwoWays(w: int, n0: int, inv: int, v: int, q: int, p: int)
    requires n0 * inv == 1 + w * q && n0 * v == w * (p + 1) - 1
    ensures v + inv == w * ((p + 1) * inv - v * q)
  {
    calc {
      v + v * (w * q);
      v * (1 + w * q);
      v * (n0 * inv);
      { assert v * (n0 * inv) == (n0 * v) * inv; }
      (w * (p + 1) - 1) * inv;
      w * (p + 1) * inv - inv;
    }
    assert w * (p + 1) * inv == w * ((p + 1) * inv);
    assert v * (w * q) == w * (v * q);
  }

  /** What the constant is for: one reduction step makes any `t` divisible by `2^32`. */
  lemma ReductionDivides(n: nat, n0: u32, t: nat)
    requires n % WORD == n0 && n0 % 2 == 1
    ensures (t + (t * Negate(Newton(n0, STEPS)) % WORD) * n) % WORD == 0
  {
    N0InvIsInverse(n0);
    var r: int := Negate(Newton(n0, STEPS));
    var m := t * r % WORD;
    var a, b, c := t * r / WORD, n / WORD, n0 * r / WORD;
    assert t * r == WORD * a + m;
    assert n == WORD * b + n0;
    assert n0 * r == WORD * (c + 1) - 1;
    Reduced(WORD, n, n0, t, r, m, a, b, c);
    Multiple(WORD, m * b + t * (c + 1) - a * n0);
  }

  lemma Reduced(w: int, n: int, n0: int, t: int, r: int, m: int, a: int, b: int, c: int)
    requires t * r == w * a + m && n == w * b + n0 && n0 * r == w * (c + 1) - 1
    ensures t + m * n == w * (m * b + t * (c + 1) - a * n0)
  {
    calc {
      m * n;
      m * (w * b) + m * n0;
      { assert m == t * r - w * a; }
      m * (w * b) + (t * r - w * a) * n0;
      m * (w * b) + t * r * n0 - w * a * n0;
      { assert t * r * n0 == t * (n0 * r); }
      m * (w * b) + t * (w * (c + 1) - 1) - w * a * n0;
      m * (w * b) + t * (w * (c + 1)) - t - w * a * n0;
    }
    assert m * (w * b) == w * (m * b);
    assert t * (w * (c + 1)) == w * (t * (c + 1));
    assert w * a * n0 == w * (a * n0);
  }
}
