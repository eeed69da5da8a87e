/** Android's 524-byte public-key structure. Big integers are natural numbers; whether a pair of
    modulus and exponent makes an RSA key is a parameter. */
module PubKey {
  import opened Bytes
  import opened Montgomery

  const MODULUS_BYTES := 256
  const MODULUS_WORDS: u32 := 64
  const ENCODED_LEN := 4 + 4 + 256 + 256 + 4

  datatype Key = Key(n: nat, e: nat)

  datatype KeyError =
    | NotModulusSize | EvenModulus | TooWide | WideExponent | BadLength | BadWords | InvalidKey | Mismatch

  /** `BigUint::to_bytes_le`: no leading zeros, zero is one byte. */
  function ToBytesLe(v: nat): Data {
    if v < 0x100 then [v] else [v % 0x100] + ToBytesLe(v / 0x100)
  }

  function FromBytesLe(b: Data): nat {
    if b == [] then 0 else (b[0] as nat) + 0x100 * FromBytesLe(b[1..])
  }

  function Pow256(k: nat): nat {
    if k == 0 then 1 else 0x100 * Pow256(k - 1)
  }

  /** `BigUint::bits`. */
  function Bits(v: nat): nat {
    if v == 0 then 0 else 1 + Bits(v / 2)
  }

  function ToLePadded(v: nat): Result<Data, KeyError> {
    var b := ToBytesLe(v);
    if |b| > MODULUS_BYTES then Err(TooWide) else Ok(b + Zeros(MODULUS_BYTES - |b|))
  }

  method ToLePaddedArray(v: nat) returns (r: Result<array<byte>, KeyError>)
    ensures match ToLePadded(v)
            case Err(e) => r == Err(e)
            case Ok(b) => r.Ok? && r.value[..] == b
  {
    var bytes := ToBytesLe(v);
    if |bytes| > MODULUS_BYTES {
      return Err(TooWide);
    }
    var out := new byte[MODULUS_BYTES](_ => 0);
    for i := 0 to |bytes|
      invariant out[..i] == bytes[..i]
      invariant forall k :: i <= k < MODULUS_BYTES ==> out[k] == 0
    {
      out[i] := bytes[i];
    }
    assert out[..] == bytes + Zeros(MODULUS_BYTES - |bytes|);
    return Ok(out);
  }

  /** `R^2 mod n` for `R = 2^2048`. */
  function Rr(n: nat): nat
    requires n > 0
  {
    Pow256(MODULUS_BYTES) * Pow256(MODULUS_BYTES) % n
  }

  function Encode(key: Key): Result<Data, KeyError> {
    if Bits(key.n) != MODULUS_BYTES * 8 then Err(NotModulusSize)
    else if ToBytesLe(key.n)[0] % 2 == 0 then Err(EvenModulus)
    else
      match ToLePadded(key.n)
      case Err(e) => Err(e)
      case Ok(n) =>
        assert key.n > 0;
        match ToLePadded(Rr(key.n))
        case Err(e) => Err(e)
        case Ok(rr) =>
          var e := ToBytesLe(key.e);
          if |e| > 4 then Err(WideExponent)
          else
            var n0 := U32At(n, 0);
            Ok(Le32(MODULUS_WORDS) + Le32(Negate(Newton(n0, STEPS))) + n + rr + (e + Zeros(4 - |e|)))
  }

  /** `encode`: the fields are appended to a buffer. */
  method EncodeKey(key: Key) returns (r: Result<Data, KeyError>)
    ensures r == Encode(key)
  {
    if Bits(key.n) != MODULUS_BYTES * 8 {
      return Err(NotModulusSize);
    }
    if ToBytesLe(key.n)[0] % 2 == 0 {
      return Err(EvenModulus);
    }
    var modulus := ToLePaddedArray(key.n);
    if modulus.Err? {
      return Err(modulus.error);
    }
    var nLe := modulus.value[..];
    var square := ToLePaddedArray(Rr(key.n));
    if square.Err? {
      return Err(square.error);
    }
    var eBytes := ToBytesLe(key.e);
    if |eBytes| > 4 {
      return Err(WideExponent);
    }
    var eLe := eBytes + Zeros(4 - |eBytes|);
    var inverse := N0Inv(U32At(nLe, 0));
    var out := Le32(MODULUS_WORDS);
    out := out + Le32(inverse);
    out := out + nLe;
    out := out + square.value[..];
    out := out + Le32(FromLe32(eLe));
    FromLe32RoundTrip(eLe);
    return Ok(out);
  }

  function Decode(b: Data, valid: Key -> bool): Result<Key, KeyError> {
    if |b| != ENCODED_LEN then Err(BadLength)
    else if U32At(b, 0) != MODULUS_WORDS then Err(BadWords)
    else
      var key := Key(FromBytesLe(b[8..8 + MODULUS_BYTES]), U32At(b, 8 + 2 * MODULUS_BYTES));
      if !valid(key) then Err(InvalidKey)
      else
        match Encode(key)
        case Err(e) => Err(e)
        case Ok(expected) => if expected != b then Err(Mismatch) else Ok(key)
  }

  lemma {:induction false} BytesRoundTrip(v: nat)
    ensures FromBytesLe(ToBytesLe(v)) == v
  {
    if v >= 0x100 {
      BytesRoundTrip(v / 0x100);
      assert ToBytesLe(v)[1..] == ToBytesLe(v / 0x100);
    } else {
      assert FromBytesLe([v]) == v + 0x100 * FromBytesLe([]);
    }
  }

  lemma {:induction false} PaddingIsNothing(b: Data, k: nat)
    ensures FromBytesLe(b + Zeros(k)) == FromBytesLe(b)
  {
    if b == [] {
      assert b + Zeros(k) == Zeros(k);
      ZerosAreZero(k);
    } else {
      PaddingIsNothing(b[1..], k);
      assert (b + Zeros(k))[1..] == b[1..] + Zeros(k);
    }
  }

  lemma {:induction false} ZerosAreZero(k: nat)
    ensures FromBytesLe(Zeros(k)) == 0
  {
    if k > 0 {
      ZerosAreZero(k - 1);
      assert Zeros(k)[1..] == Zeros(k - 1);
    }
  }

  /** A number takes `k` bytes or fewer exactly when it is below `256^k`. */
  lemma {:induction false} LengthIsSize(v: nat, k: nat)
    requires k > 0
    ensures |ToBytesLe(v)| <= k <==> v < Pow256(k)
  {
    if k == 1 {
      assert Pow256(1) == 0x100 * Pow256(0);
      assert v >= 0x100 ==> |ToBytesLe(v)| == 1 + |ToBytesLe(v / 0x100)|;
      AtLeastOneByte(v / 0x100);
    } else if v < 0x100 {
      PowPositive(k - 1);
    } else {
      LengthIsSize(v / 0x100, k - 1);
      assert Pow256(k) == 0x100 * Pow256(k - 1);
      assert v / 0x100 < Pow256(k - 1) <==> v < 0x100 * Pow256(k - 1);
    }
  }

  lemma AtLeastOneByte(v: nat)
    ensures |ToBytesLe(v)| >= 1
  {
  }

  lemma {:induction false} PowPositive(k: nat)
    ensures Pow256(k) > 0
  {
    if k > 0 {
      PowPositive(k - 1);
    }
  }

  function Pow2(k: nat): nat {
    if k == 0 then 1 else 2 * Pow2(k - 1)
  }

  /** A number takes `k` bits or fewer exactly when it is below `2^k`. */
  lemma {:induction false} BitsIsSize(v: nat, k: nat)
    ensures Bits(v) <= k <==> v < Pow2(k)
  {
    if k > 0 && v > 0 {
      BitsIsSize(v / 2, k - 1);
    } else if k > 0 {
      BitsIsSize(0, k - 1);
    }
  }

  lemma {:induction false} Pow2IsPow256(k: nat)
    ensures Pow2(8 * k) == Pow256(k)
  {
    if k > 0 {
      Pow2IsPow256(k - 1);
      EightDoublings(8 * k - 8);
    }
  }

  lemma EightDoublings(n: nat)
    ensures Pow2(n + 8) == 0x100 * Pow2(n)
  {
    assert Pow2(n + 4) == 16 * Pow2(n) by {
      assert Pow2(n + 2) == 4 * Pow2(n);
    }
    assert Pow2(n + 8) == 16 * Pow2(n + 4) by {
      assert Pow2(n + 6) == 4 * Pow2(n + 4);
    }
  }

  /** A 2048-bit modulus fills its field, and `rr` always fits. */
  lemma RrFits(n: nat)
    requires Bits(n) == MODULUS_BYTES * 8
    ensures n > 0 && |ToBytesLe(n)| == MODULUS_BYTES && |ToBytesLe(Rr(n))| <= MODULUS_BYTES
  {
    BitsIsSize(n, 8 * MODULUS_BYTES);
    BitsIsSize(n, 8 * (MODULUS_BYTES - 1));
    Pow2IsPow256(MODULUS_BYTES);
    Pow2IsPow256(MODULUS_BYTES - 1);
    LengthIsSize(n, MODULUS_BYTES);
    LengthIsSize(n, MODULUS_BYTES - 1);
    LengthIsSize(Rr(n), MODULUS_BYTES);
  }

  /** Exactly which keys can be encoded. */
  lemma Encodable(key: Key)
    ensures Encode(key).Ok? <==> Bits(key.n) == MODULUS_BYTES * 8 && key.n % 2 == 1 && key.e <= U32_MAX
    ensures Encode(key).Ok? ==> |Encode(key).value| == ENCODED_LEN
  {
    FirstByte(key.n);
    if Bits(key.n) == MODULUS_BYTES * 8 {
      RrFits(key.n);
      LengthIsSize(key.e, 4);
      assert Pow256(4) == 0x100 * Pow256(3) && Pow256(3) == 0x100 * Pow256(2) && Pow256(2) == 0x100 * Pow256(1);
      assert Pow256(1) == 0x100 * Pow256(0);
    }
  }

  lemma FirstByte(v: nat)
    ensures |ToBytesLe(v)| > 0 && ToBytesLe(v)[0] % 2 == v % 2
  {
    if v >= 0x100 {
      assert v == 0x100 * (v / 0x100) + v % 0x100;
    }
  }

  lemma WordOf(b: Data)
    requires |b| == 4
    ensures FromBytesLe(b) == FromLe32(b)
  {
    var b1, b2, b3 := b[1..], b[2..], b[3..];
    assert b1[1..] == b2 && b2[1..] == b3 && b3[1..] == [];
    assert FromBytesLe(b3) == b[3];
    assert FromBytesLe(b2) == b[2] + 0x100 * FromBytesLe(b3);
    assert FromBytesLe(b1) == b[1] + 0x100 * FromBytesLe(b2);
  }

  lemma EncodedFields(key: Key)
    requires Encode(key).Ok?
    ensures var b := Encode(key).value;
            && |b| == ENCODED_LEN
            && ToLePadded(key.n) == Ok(b[8..8 + MODULUS_BYTES])
            && ToLePadded(Rr(key.n)) == Ok(b[8 + MODULUS_BYTES..8 + 2 * MODULUS_BYTES])
            && U32At(b, 4) == Negate(Newton(U32At(b[8..8 + MODULUS_BYTES], 0), STEPS))
  {
    Encodable(key);
    RrFits(key.n);
    var b := Encode(key).value;
    var n := ToLePadded(key.n).value;
    var inv := Negate(Newton(U32At(n, 0), STEPS));
    assert b[4..8] == Le32(inv);
    Le32RoundTrip(inv);
    assert b[8..8 + MODULUS_BYTES] == n;
    assert b[8 + MODULUS_BYTES..8 + 2 * MODULUS_BYTES] == ToLePadded(Rr(key.n)).value;
  }

  lemma PaddedValue(v: nat)
    requires ToLePadded(v).Ok?
    ensures FromBytesLe(ToLePadded(v).value) == v
  {
    BytesRoundTrip(v);
    PaddingIsNothing(ToBytesLe(v), MODULUS_BYTES - |ToBytesLe(v)|);
  }

  /** The first and the last word of an encoded key. */
  lemma EncodedEnds(key: Key)
    requires Encode(key).Ok?
    ensures var b := Encode(key).value;
            |b| == ENCODED_LEN && U32At(b, 0) == MODULUS_WORDS && U32At(b, 8 + 2 * MODULUS_BYTES) == key.e
  {
    Encodable(key);
    var b := Encode(key).value;
    var e := ToBytesLe(key.e);
    var ePadded := e + Zeros(4 - |e|);
    assert b[0..4] == Le32(MODULUS_WORDS);
    Le32RoundTrip(MODULUS_WORDS);
    assert b[8 + 2 * MODULUS_BYTES..8 + 2 * MODULUS_BYTES + 4] == ePadded;
    BytesRoundTrip(key.e);
    PaddingIsNothing(e, 4 - |e|);
    WordOf(ePadded);
  }

  /** An encoded key decodes to itself if the RSA implementation takes it. */
  lemma KeyRoundTrip(key: Key, valid: Key -> bool)
    requires Encode(key).Ok? && valid(key)
    ensures Decode(Encode(key).value, valid) == Ok(key)
  {
    EncodedFields(key);
    EncodedEnds(key);
    PaddedValue(key.n);
  }

  /** `decode` accepts exactly the encodings of valid keys: every field is checked. */
  lemma DecodeIsExact(b: Data, key: Key, valid: Key -> bool)
    ensures Decode(b, valid) == Ok(key) <==> valid(key) && Encode(key) == Ok(b)
  {
    if valid(key) && Encode(key) == Ok(b) {
      KeyRoundTrip(key, valid);
    }
  }

  lemma LowWord(b: Data)
    requires |b| >= 4
    ensures FromBytesLe(b) == U32At(b, 0) + WORD * FromBytesLe(b[4..])
    ensures FromBytesLe(b) % WORD == U32At(b, 0)
  {
    var b1, b2, b3, b4 := b[1..], b[2..], b[3..], b[4..];
    assert b1[1..] == b2 && b2[1..] == b3 && b3[1..] == b4;
    assert FromBytesLe(b3) == b[3] + 0x100 * FromBytesLe(b4);
    assert FromBytesLe(b2) == b[2] + 0x100 * FromBytesLe(b3);
    assert FromBytesLe(b1) == b[1] + 0x100 * FromBytesLe(b2);
    assert b[0..4] == [b[0], b[1], b[2], b[3]];
    ModIs(FromBytesLe(b), WORD, FromBytesLe(b4), U32At(b, 0));
  }

  lemma OddLowWord(n: nat)
    requires n % 2 == 1
    ensures n % WORD % 2 == 1
  {
    var q, r := n / WORD, n % WORD;
    assert n == 2 * (0x8000_0000 * q) + r;
  }

  lemma InverseOfLowWord(n: nat, b: Data)
    requires |b| >= 4 && FromBytesLe(b) == n && n % 2 == 1
    ensures (n % WORD) * Negate(Newton(U32At(b, 0), STEPS)) % WORD == WORD - 1
  {
    LowWord(b);
    OddLowWord(n);
    N0InvIsInverse(n % WORD);
  }

  lemma {:induction false} Pow256Adds(j: nat, k: nat)
    ensures Pow256(j + k) == Pow256(j) * Pow256(k)
  {
    if j > 0 {
      Pow256Adds(j - 1, k);
      assert j + k - 1 == j - 1 + k;
      Associated(0x100, Pow256(j - 1), Pow256(k));
    }
  }

  /** What `rr` is the remainder of. */
  lemma RrIsRemainder(n: nat) returns (q: nat)
    requires n > 0
    ensures Rr(n) < n && Pow2(4096) == q * n + Rr(n)
  {
    var square := Pow256(MODULUS_BYTES) * Pow256(MODULUS_BYTES);
    q := square / n;
    Pow256Adds(MODULUS_BYTES, MODULUS_BYTES);
    Pow2IsPow256(2 * MODULUS_BYTES);
    QuotientOf(square, n);
  }

  lemma QuotientOf(a: nat, n: nat)
    requires n > 0
    ensures a == a / n * n + a % n
  {
  }

  /** The 524 bytes of an encoded key: the number of words, the negative inverse of the modulus modulo
      `2^32`, the modulus, `2^4096` modulo the modulus, and the exponent. */
  lemma EncodedConstants(key: Key)
    requires Encode(key).Ok?
    ensures |Encode(key).value| == 524
    ensures var b := Encode(key).value;
            && U32At(b, 0) == 64
            && (key.n % 0x1_0000_0000) * U32At(b, 4) % 0x1_0000_0000 == 0xFFFF_FFFF
            && FromBytesLe(b[8..264]) == key.n > 0
            && FromBytesLe(b[264..520]) < key.n
            && (exists q: nat :: Pow2(4096) == q * key.n + FromBytesLe(b[264..520]))
            && U32At(b, 520) == key.e
  {
    EncodedFields(key);
    EncodedEnds(key);
    Encodable(key);
    PaddedValue(key.n);
    PaddedValue(Rr(key.n));
    InverseOfLowWord(key.n, ToLePadded(key.n).value);
    var q := RrIsRemainder(key.n);
    assert Pow2(4096) == q * key.n + FromBytesLe(Encode(key).value[264..520]);
  }

  /** `a` and `b` leave the same remainder. */
  predicate Congruent(a: int, b: int, n: nat)
    requires n > 0
  {
    (a - b) % n == 0
  }

  lemma Factor(a: int, n: nat) returns (q: int)
    requires n > 0 && a % n == 0
    ensures a == n * q
  {
    q := a / n;
  }

  lemma HasFactor(n: nat, q: int)
    requires n > 0
    ensures n * q % n == 0
  {
    ModIs(n * q, n, q, 0);
  }

  lemma OddTimesOdd(n: int, q: int)
    requires n % 2 == 1 && q % 2 == 1
    ensures n * q % 2 == 1
  {
    var k, h := n / 2, q / 2;
    assert n * q == (2 * k + 1) * (2 * h + 1);
    assert (2 * k + 1) * (2 * h + 1) == 2 * (2 * k * h + k + h) + 1;
  }

  lemma Doubled(n: int, h: int, q: int)
    requires q == 2 * h
    ensures n * q == 2 * (n * h)
  {
  }

  lemma Associated(x: int, y: int, z: int)
    ensures x * (y * z) == (x * y) * z
  {
  }

  /** An odd number that divides a double divides its half. */
  lemma OddDividesHalf(n: nat, y: int)
    requires n % 2 == 1 && (2 * y) % n == 0
    ensures y % n == 0
  {
    var q := Factor(2 * y, n);
    var h := q / 2;
    if q % 2 == 1 {
      OddTimesOdd(n, q);
      assert false;
    }
    Doubled(n, h, q);
    HasFactor(n, h);
  }

  lemma {:induction false} OddDividesPower(n: nat, k: nat, y: int)
    requires n % 2 == 1 && (Pow2(k) * y) % n == 0
    ensures y % n == 0
    decreases k
  {
    if k > 0 {
      Associated(2, Pow2(k - 1), y);
      OddDividesHalf(n, Pow2(k - 1) * y);
      OddDividesPower(n, k - 1, y);
    }
  }

  lemma {:induction false} Pow2Adds(j: nat, k: nat)
    ensures Pow2(j + k) == Pow2(j) * Pow2(k)
    decreases j
  {
    if j > 0 {
      Pow2Adds(j - 1, k);
      assert j + k - 1 == j - 1 + k;
      Associated(2, Pow2(j - 1), Pow2(k));
    }
  }

  lemma Regroup(r: int, z: int, x: int, v: int, n: int, a: int, q: int)
    requires z * r - x * v == n * a && r * r == q * n + v
    ensures r * (z - x * r) == n * (a - x * q)
  {
    calc {
      r * (z - x * r);
      r * z - r * (x * r);
      { assert r * (x * r) == x * (r * r); }
      z * r - x * (q * n + v);
      z * r - x * v - x * (q * n);
      { assert x * (q * n) == n * (x * q); }
      n * a - n * (x * q);
      n * (a - x * q);
    }
  }

  lemma Converts(n: nat, k: nat, v: nat, q: nat, x: int, z: int)
    requires n % 2 == 1 && Pow2(k) * Pow2(k) == q * n + v && Congruent(z * Pow2(k), x * v, n)
    ensures Congruent(z, x * Pow2(k), n)
  {
    var r := Pow2(k);
    var a := Factor(z * r - x * v, n);
    Regroup(r, z, x, v, n, a, q);
    HasFactor(n, a - x * q);
    OddDividesPower(n, k, z - x * r);
  }

  /** What the encoded `rr` is for: a Montgomery product of any `x` with it, that is a `z` for which
      `z * R` is `x * rr` modulo the modulus, is `x * R`, with `R = 2^2048`. */
  lemma RrConverts(key: Key, x: int, z: int)
    requires Encode(key).Ok? && key.n > 0
    requires Congruent(z * Pow2(2048), x * FromBytesLe(Encode(key).value[264..520]), key.n)
    ensures Congruent(z, x * Pow2(2048), key.n)
  {
    EncodedConstants(key);
    Encodable(key);
    var v := FromBytesLe(Encode(key).value[264..520]);
    var q: nat :| Pow2(4096) == q * key.n + v;
    Pow2Adds(2048, 2048);
    Converts(key.n, 2048, v, q, x, z);
  }

  /** Every error has one cause, looked for in this order. */
  lemma EncodeErrors(key: Key)
    ensures Encode(key) == Err(NotModulusSize) <==> !(Pow2(2047) <= key.n < Pow2(2048))
    ensures Encode(key) == Err(EvenModulus) <==> Pow2(2047) <= key.n < Pow2(2048) && key.n % 2 == 0
    ensures Encode(key) == Err(WideExponent) <==>
              Pow2(2047) <= key.n < Pow2(2048) && key.n % 2 == 1 && key.e >= 0x1_0000_0000
    ensures Encode(key) != Err(TooWide)
  {
    BitsIsSize(key.n, 2048);
    BitsIsSize(key.n, 2047);
    FirstByte(key.n);
    Encodable(key);
    if Bits(key.n) == MODULUS_BYTES * 8 {
      RrFits(key.n);
    }
  }

  lemma DecodeErrors(b: Data, valid: Key -> bool)
    ensures Decode(b, valid) == Err(BadLength) <==> |b| != 524
    ensures Decode(b, valid) == Err(BadWords) <==> |b| == 524 && U32At(b, 0) != 64
    ensures Decode(b, valid) == Err(InvalidKey) <==>
              |b| == 524 && U32At(b, 0) == 64 && !valid(Key(FromBytesLe(b[8..264]), U32At(b, 520)))
  {
    if |b| == 524 {
      EncodeErrors(Key(FromBytesLe(b[8..264]), U32At(b, 520)));
    }
  }
}
