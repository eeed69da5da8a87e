/** Header encoding and checksums: the array and the loop of the code, and what they achieve. */
module WireCodec {
  import opened Bytes
  import opened Wire

  method ComputeChecksum(payload: Data) returns (sum: u32)
    ensures sum == Checksum(payload)
  {
    sum := 0;
    for i := 0 to |payload|
      invariant sum == Checksum(payload[..i])
    {
      assert payload[..i + 1][..i] == payload[..i];
      sum := (sum + payload[i]) % 0x1_0000_0000;
    }
    assert payload[..|payload|] == payload;
  }

  /** One word behind those that are already there. */
  method PutWord(out: array<byte>, at: nat, v: u32)
    requires at + 4 <= out.Length
    modifies out
    ensures out[..at + 4] == old(out[..at]) + Le32(v)
  {
    var w := Le32(v);
    ghost var front := out[..at];
    for i := 0 to 4
      invariant out[..at] == front
      invariant forall k :: 0 <= k < i ==> out[at + k] == w[k]
    {
      out[at + i] := w[i];
    }
  }

  method EncodeHeaderArray(h: Header) returns (out: array<byte>)
    ensures fresh(out) && out[..] == EncodeHeader(h)
  {
    var code := Code(h.command);
    out := new byte[HEADER_LEN](_ => 0);
    PutWord(out, 0, code);
    PutWord(out, 4, h.arg0);
    PutWord(out, 8, h.arg1);
    PutWord(out, 12, h.dataLength);
    PutWord(out, 16, h.dataCheck);
    PutWord(out, 20, Magic(code));
    assert out[..] == out[..HEADER_LEN];
  }

  lemma EncodedWords(h: Header)
    ensures var b := EncodeHeader(h);
            && U32At(b, 0) == Code(h.command) && U32At(b, 4) == h.arg0 && U32At(b, 8) == h.arg1
            && U32At(b, 12) == h.dataLength && U32At(b, 16) == h.dataCheck && U32At(b, 20) == Magic(Code(h.command))
  {
    var b, code := EncodeHeader(h), Code(h.command);
    assert b[0..4] == Le32(code) && b[4..8] == Le32(h.arg0) && b[8..12] == Le32(h.arg1);
    assert b[12..16] == Le32(h.dataLength) && b[16..20] == Le32(h.dataCheck) && b[20..24] == Le32(Magic(code));
    Le32RoundTrip(code);
    Le32RoundTrip(h.arg0);
    Le32RoundTrip(h.arg1);
    Le32RoundTrip(h.dataLength);
    Le32RoundTrip(h.dataCheck);
    Le32RoundTrip(Magic(code));
  }

  /** Every command is found from its code, and nothing else from any. */
  lemma CodesRoundTrip(c: Command, code: u32)
    ensures FromCode(code) == Some(c) <==> code == Code(c)
  {
  }

  lemma Text4(v: u32, s: string)
    requires |s| == 4 && forall k :: 0 <= k < 4 ==> s[k] as int < 0x80
    requires v == s[0] as int + 256 * s[1] as int + 65536 * s[2] as int + 16777216 * s[3] as int
    ensures Le32(v) == Ascii(s)
  {
    assert FromLe32(Ascii(s)) == v;
    FromLe32RoundTrip(Ascii(s));
  }

  /** A header starts with the four characters of its command. */
  lemma CommandOnWire(h: Header)
    ensures EncodeHeader(h)[..4] == Ascii(match h.command
                                          case Sync => "SYNC"
                                          case Connect => "CNXN"
                                          case Auth => "AUTH"
                                          case Open => "OPEN"
                                          case Okay => "OKAY"
                                          case Close => "CLSE"
                                          case Write => "WRTE"
                                          case StartTls => "STLS")
  {
    var code := Code(h.command);
    assert EncodeHeader(h)[..4] == Le32(code);
    match h.command {
      case Sync => Text4(code, "SYNC");
      case Connect => Text4(code, "CNXN");
      case Auth => Text4(code, "AUTH");
      case Open => Text4(code, "OPEN");
      case Okay => Text4(code, "OKAY");
      case Close => Text4(code, "CLSE");
      case Write => Text4(code, "WRTE");
      case StartTls => Text4(code, "STLS");
    }
  }

  /** `^ 0xFFFF_FFFF`: every byte is complemented. */
  lemma MagicComplements(code: u32, k: nat)
    requires k < 4
    ensures Le32(Magic(code))[k] == 255 - Le32(code)[k]
  {
    var b := Le32(code);
    var c: Data := [255 - b[0], 255 - b[1], 255 - b[2], 255 - b[3]];
    Le32IsLittleEndian(code);
    assert FromLe32(c) == Magic(code);
    FromLe32RoundTrip(c);
  }

  /** Where the fields of a header are; the last four bytes are the first four complemented. */
  lemma HeaderLayout(h: Header)
    ensures var b := EncodeHeader(h);
            && |b| == 24
            && U32At(b, 4) == h.arg0 && U32At(b, 8) == h.arg1
            && U32At(b, 12) == h.dataLength && U32At(b, 16) == h.dataCheck
            && (forall k :: 0 <= k < 4 ==> b[20 + k] == 255 - b[k])
  {
    EncodedWords(h);
    var b, code := EncodeHeader(h), Code(h.command);
    assert b[0..4] == Le32(code) && b[20..24] == Le32(Magic(code));
    forall k | 0 <= k < 4 ensures b[20 + k] == 255 - b[k] {
      MagicComplements(code, k);
      assert b[0..4][k] == b[k] && b[20..24][k] == b[20 + k];
    }
  }

  /** A header decodes to itself, or is refused for its length alone. */
  lemma HeaderRoundTrip(h: Header, maxPayload: u32)
    ensures DecodeHeader(EncodeHeader(h), maxPayload) ==
            if h.dataLength <= maxPayload && h.dataLength <= 0x10_0000 then Ok(h) else Err(TooLong)
  {
    EncodedWords(h);
    CodesRoundTrip(h.command, Code(h.command));
  }

  /** Why 24 bytes are refused: a magic that is not the complement of the command word comes first,
      then a word that is no command's, then the length. */
  lemma DecodeErrors(b: Data, maxPayload: u32)
    requires |b| == 24
    ensures DecodeHeader(b, maxPayload) == Err(BadMagic) <==> U32At(b, 0) + U32At(b, 20) != 0xFFFF_FFFF
    ensures DecodeHeader(b, maxPayload) == Err(UnknownCommand) <==>
              U32At(b, 0) + U32At(b, 20) == 0xFFFF_FFFF && forall c :: Code(c) != U32At(b, 0)
    ensures DecodeHeader(b, maxPayload) == Err(TooLong) ==> U32At(b, 12) > maxPayload || U32At(b, 12) > 0x10_0000
  {
    if FromCode(U32At(b, 0)).Some? {
      CodesRoundTrip(FromCode(U32At(b, 0)).value, U32At(b, 0));
    } else {
      forall c ensures Code(c) != U32At(b, 0) {
        CodesRoundTrip(c, U32At(b, 0));
      }
    }
  }

  /** Nothing but the encoding of its result decodes to it. */
  lemma DecodeIsExact(b: Data, maxPayload: u32)
    requires |b| == HEADER_LEN && DecodeHeader(b, maxPayload).Ok?
    ensures EncodeHeader(DecodeHeader(b, maxPayload).value) == b
  {
    FromLe32RoundTrip(b[0..4]);
    FromLe32RoundTrip(b[4..8]);
    FromLe32RoundTrip(b[8..12]);
    FromLe32RoundTrip(b[12..16]);
    FromLe32RoundTrip(b[16..20]);
    FromLe32RoundTrip(b[20..24]);
    CodesRoundTrip(FromCode(U32At(b, 0)).value, U32At(b, 0));
    assert b == b[0..4] + b[4..8] + b[8..12] + b[12..16] + b[16..20] + b[20..24];
  }

  function Sum(payload: Data): nat {
    if payload == [] then 0 else Sum(payload[..|payload| - 1]) + payload[|payload| - 1]
  }

  lemma WrapOnce(sum: nat, b: nat)
    ensures (sum % 0x1_0000_0000 + b) % 0x1_0000_0000 == (sum + b) % 0x1_0000_0000
  {
  }

  lemma NearSumsDiffer(sum: nat, a: byte, b: byte)
    requires a != b && sum >= a
    ensures sum % 0x1_0000_0000 != (sum - a + b) % 0x1_0000_0000
  {
  }

  lemma {:induction false} ChecksumIsSum(payload: Data)
    ensures Checksum(payload) == Sum(payload) % 0x1_0000_0000
  {
    if payload != [] {
      ChecksumIsSum(payload[..|payload| - 1]);
      WrapOnce(Sum(payload[..|payload| - 1]), payload[|payload| - 1]);
    }
  }

  lemma {:induction false} SumChange(payload: Data, k: nat, b: byte)
    requires k < |payload|
    ensures Sum(payload[k := b]) == Sum(payload) - payload[k] + b
  {
    var n := |payload| - 1;
    if k == n {
      assert payload[k := b][..n] == payload[..n];
    } else {
      SumChange(payload[..n], k, b);
      assert payload[k := b][..n] == payload[..n][k := b];
    }
  }

  /** Changing one payload byte always changes the checksum. */
  lemma OneByteChangeDetected(payload: Data, k: nat, b: byte)
    requires k < |payload| && payload[k] != b
    ensures Checksum(payload[k := b]) != Checksum(payload)
  {
    ChecksumIsSum(payload);
    ChecksumIsSum(payload[k := b]);
    SumChange(payload, k, b);
    SumHolds(payload, k);
    NearSumsDiffer(Sum(payload), payload[k], b);
  }

  lemma {:induction false} SumHolds(payload: Data, k: nat)
    requires k < |payload|
    ensures Sum(payload) >= payload[k]
  {
    if k < |payload| - 1 {
      SumHolds(payload[..|payload| - 1], k);
    }
  }
}
