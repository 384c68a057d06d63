/** The fixed 48-byte message header and the FNV-1a schema fingerprint. */
module Header {
  import opened Bits
  import opened Bytes

  const MESSAGE_MAGIC: Word32 := 0x31424452
  const MESSAGE_VERSION: nat := 1
  const HEADER_SIZE: nat := 48

  type Word16 = x: nat | x < 0x1_0000

  datatype MessageHeader = MessageHeader(
    magic: Word32, version: Word16, flags: Word16, schemaId: Word32, schemaHash: Word32,
    seqNo: Word, stampNs: Word, publishNs: Word, payloadSize: Word32, reserved: Word32)

  // ---------------------------------------------------------------- layout

  /** The wire image of a header: every field little-endian, at its fixed offset. */
  function Layout(h: MessageHeader): (s: seq<Byte>)
    ensures |s| == HEADER_SIZE
  {
    Identity(h) + Times(h) + Sizes(h)
  }

  function Identity(h: MessageHeader): (s: seq<Byte>)
    ensures |s| == 16
  {
    Le(h.magic, 4) + Le(h.version, 2) + Le(h.flags, 2) + Le(h.schemaId, 4) + Le(h.schemaHash, 4)
  }

  function Times(h: MessageHeader): (s: seq<Byte>)
    ensures |s| == 24
  {
    Le(h.seqNo, 8) + Le(h.stampNs, 8) + Le(h.publishNs, 8)
  }

  function Sizes(h: MessageHeader): (s: seq<Byte>)
    ensures |s| == 8
  {
    Le(h.payloadSize, 4) + Le(h.reserved, 4)
  }

  function U16(s: seq<Byte>, at: nat): Word16
    requires at + 2 <= |s|
  {
    ValBelow(s[at..at + 2]); Pow2Values();
    Val(s[at..at + 2])
  }

  function U32(s: seq<Byte>, at: nat): Word32
    requires at + 4 <= |s|
  {
    ValBelow(s[at..at + 4]); Pow2Values();
    Val(s[at..at + 4])
  }

  function U64(s: seq<Byte>, at: nat): Word
    requires at + 8 <= |s|
  {
    ValBelow(s[at..at + 8]); Pow2Values();
    Val(s[at..at + 8])
  }

  /** The fields found in the first 48 bytes, whatever they are. */
  function Fields(s: seq<Byte>): MessageHeader
    requires |s| >= HEADER_SIZE
  {
    MessageHeader(U32(s, 0), U16(s, 4), U16(s, 6), U32(s, 8), U32(s, 12),
                  U64(s, 16), U64(s, 24), U64(s, 32), U32(s, 40), U32(s, 44))
  }

  predicate Supported(h: MessageHeader) {
    h.magic == MESSAGE_MAGIC && 0 < h.version <= MESSAGE_VERSION
  }

  /** The offsets and widths of the fields on the wire. */
  lemma LayoutOffsets(h: MessageHeader)
    ensures var s := Layout(h);
            && s[0..4] == Le(h.magic, 4) && s[4..6] == Le(h.version, 2) && s[6..8] == Le(h.flags, 2)
            && s[8..12] == Le(h.schemaId, 4) && s[12..16] == Le(h.schemaHash, 4)
            && s[16..24] == Le(h.seqNo, 8) && s[24..32] == Le(h.stampNs, 8)
            && s[32..40] == Le(h.publishNs, 8)
            && s[40..44] == Le(h.payloadSize, 4) && s[44..48] == Le(h.reserved, 4)
  {
    var s := Layout(h);
    assert s[0..16] == Identity(h) && s[16..40] == Times(h) && s[40..48] == Sizes(h);
    IdentitySlices(h);
    SliceOfSlice(s, 0, 16, 0, 4); SliceOfSlice(s, 0, 16, 4, 6); SliceOfSlice(s, 0, 16, 6, 8);
    SliceOfSlice(s, 0, 16, 8, 12); SliceOfSlice(s, 0, 16, 12, 16);
    TimesSlices(h);
    SliceOfSlice(s, 16, 40, 0, 8); SliceOfSlice(s, 16, 40, 8, 16); SliceOfSlice(s, 16, 40, 16, 24);
    SizesSlices(h);
    SliceOfSlice(s, 40, 48, 0, 4); SliceOfSlice(s, 40, 48, 4, 8);
  }

  /** "RDB1", in the order in which the bytes are sent. */
  lemma MessageMagicSpells()
    ensures Le(MESSAGE_MAGIC, 4) == [0x52, 0x44, 0x42, 0x31]
  {
    assert Le(MESSAGE_MAGIC, 4) == [0x52] + Le(MESSAGE_MAGIC / 256, 3);
    assert Le(0x314244, 3) == [0x44] + Le(0x3142, 2);
    assert Le(0x3142, 2) == [0x42] + Le(0x31, 1);
    assert Le(0x31, 1) == [0x31] + Le(0, 0);
  }

  lemma ValLe2(v: Word16)
    ensures Val(Le(v, 2)) == v
  {
    Pow2Values();
    ValLe(v, 2);
  }

  lemma ValLe8(v: Word)
    ensures Val(Le(v, 8)) == v
  {
    Pow2Values();
    ValLe(v, 8);
  }

  lemma IdentitySlices(h: MessageHeader)
    ensures Identity(h)[0..4] == Le(h.magic, 4) && Identity(h)[4..6] == Le(h.version, 2)
    ensures Identity(h)[6..8] == Le(h.flags, 2) && Identity(h)[8..12] == Le(h.schemaId, 4)
    ensures Identity(h)[12..16] == Le(h.schemaHash, 4)
  {
  }

  lemma IdentityRead(h: MessageHeader, s: seq<Byte>)
    requires |s| >= HEADER_SIZE && s[0..16] == Identity(h)
    ensures U32(s, 0) == h.magic && U16(s, 4) == h.version && U16(s, 6) == h.flags
    ensures U32(s, 8) == h.schemaId && U32(s, 12) == h.schemaHash
  {
    IdentitySlices(h);
    ReadU32(s, 0, 16, 0, h.magic);
    ReadU16(s, 0, 16, 4, h.version);
    ReadU16(s, 0, 16, 6, h.flags);
    ReadU32(s, 0, 16, 8, h.schemaId);
    ReadU32(s, 0, 16, 12, h.schemaHash);
  }

  /** A field found inside one part of the image. */
  lemma ReadU16(s: seq<Byte>, a: nat, b: nat, i: nat, v: Word16)
    requires a + i + 2 <= b <= |s| && s[a..b][i..i + 2] == Le(v, 2)
    ensures U16(s, a + i) == v
  {
    SliceOfSlice(s, a, b, i, i + 2);
    ValLe2(v);
  }

  lemma ReadU32(s: seq<Byte>, a: nat, b: nat, i: nat, v: Word32)
    requires a + i + 4 <= b <= |s| && s[a..b][i..i + 4] == Le(v, 4)
    ensures U32(s, a + i) == v
  {
    SliceOfSlice(s, a, b, i, i + 4);
    ValLe4(v);
  }

  lemma ReadU64(s: seq<Byte>, a: nat, b: nat, i: nat, v: Word)
    requires a + i + 8 <= b <= |s| && s[a..b][i..i + 8] == Le(v, 8)
    ensures U64(s, a + i) == v
  {
    SliceOfSlice(s, a, b, i, i + 8);
    ValLe8(v);
  }

  lemma TimesSlices(h: MessageHeader)
    ensures Times(h)[0..8] == Le(h.seqNo, 8) && Times(h)[8..16] == Le(h.stampNs, 8)
    ensures Times(h)[16..24] == Le(h.publishNs, 8)
  {
  }

  lemma TimesRead(h: MessageHeader, s: seq<Byte>)
    requires |s| >= HEADER_SIZE && s[16..40] == Times(h)
    ensures U64(s, 16) == h.seqNo && U64(s, 24) == h.stampNs && U64(s, 32) == h.publishNs
  {
    TimesSlices(h);
    ReadU64(s, 16, 40, 0, h.seqNo);
    ReadU64(s, 16, 40, 8, h.stampNs);
    ReadU64(s, 16, 40, 16, h.publishNs);
  }

  lemma SizesSlices(h: MessageHeader)
    ensures Sizes(h)[0..4] == Le(h.payloadSize, 4) && Sizes(h)[4..8] == Le(h.reserved, 4)
  {
  }

  lemma SizesRead(h: MessageHeader, s: seq<Byte>)
    requires |s| >= HEADER_SIZE && s[40..48] == Sizes(h)
    ensures U32(s, 40) == h.payloadSize && U32(s, 44) == h.reserved
  {
    SizesSlices(h);
    ReadU32(s, 40, 48, 0, h.payloadSize);
    ReadU32(s, 40, 48, 4, h.reserved);
  }

  /** Reading back what was written, whatever bytes follow. */
  lemma FieldsOfLayout(h: MessageHeader, rest: seq<Byte>)
    ensures Fields(Layout(h) + rest) == h
  {
    var s := Layout(h) + rest;
    assert s[0..16] == Identity(h) && s[16..40] == Times(h) && s[40..48] == Sizes(h);
    IdentityRead(h, s);
    TimesRead(h, s);
    SizesRead(h, s);
  }

  lemma IdentityOfFields(s: seq<Byte>)
    requires |s| >= HEADER_SIZE
    ensures Identity(Fields(s)) == s[..16]
  {
    LeVal(s[0..4]); LeVal(s[4..6]); LeVal(s[6..8]); LeVal(s[8..12]); LeVal(s[12..16]);
    assert s[..16] == s[0..4] + s[4..6] + s[6..8] + s[8..12] + s[12..16];
  }

  lemma TimesOfFields(s: seq<Byte>)
    requires |s| >= HEADER_SIZE
    ensures Times(Fields(s)) == s[16..40]
  {
    LeVal(s[16..24]); LeVal(s[24..32]); LeVal(s[32..40]);
    assert s[16..40] == s[16..24] + s[24..32] + s[32..40];
  }

  /** Writing back what was read: no two byte strings decode to the same header. */
  lemma LayoutOfFields(s: seq<Byte>)
    requires |s| >= HEADER_SIZE
    ensures Layout(Fields(s)) == s[..HEADER_SIZE]
  {
    IdentityOfFields(s);
    TimesOfFields(s);
    LeVal(s[40..44]); LeVal(s[44..48]);
    assert s[40..48] == s[40..44] + s[44..48];
    assert s[..48] == s[..16] + s[16..40] + s[40..48];
  }

  // ---------------------------------------------------------------- writing and reading in place

  /** The `put_*` loops: byte `i` is `(v >> 8 * i) & 0xFF`, nothing else is touched. */
  method Put(out: array<Byte>, at: nat, v: nat, n: nat)
    requires at + n <= out.Length
    modifies out
    ensures out[at..at + n] == Le(v, n)
    ensures forall k | 0 <= k < at || at + n <= k < out.Length :: out[k] == old(out[k])
  {
    for i := 0 to n
      invariant out[at..at + i] == Le(v, n)[..i]
      invariant forall k | 0 <= k < at || at + i <= k < out.Length :: out[k] == old(out[k])
    {
      LeAt(v, n, i);
      out[at + i] := And(Shr(v, 8 * i), 255);
      assert out[at..at + i + 1] == out[at..at + i] + [out[at + i]];
    }
  }

  /** The `get_*` loops: or-ing shifted bytes together yields the little-endian value. */
  method Get(input: seq<Byte>, at: nat, n: nat) returns (v: nat)
    requires at + n <= |input|
    ensures v == Val(input[at..at + n]) && v < Pow2(8 * n)
  {
    v := 0;
    for i := 0 to n
      invariant v == Val(input[at..at + i])
    {
      var b := input[at + i];
      ValBelow(input[at..at + i]);
      OrDisjoint(v, b, 8 * i);
      ValAppend(input[at..at + i], b);
      assert input[at..at + i + 1] == input[at..at + i] + [b];
      v := Or(v, Shl(b, 8 * i));
    }
    ValBelow(input[at..at + n]);
  }

  method EncodeHeader(h: MessageHeader, out: array<Byte>)
    requires out.Length >= HEADER_SIZE
    modifies out
    ensures out[..HEADER_SIZE] == Layout(h)
    ensures forall k | HEADER_SIZE <= k < out.Length :: out[k] == old(out[k])
  {
    PutIdentity(h, out);
    PutTimes(h, out);
    PutSizes(h, out);
    assert out[..16] == Identity(h);
    assert out[16..40] == Times(h);
    assert out[..48] == out[..16] + out[16..40] + out[40..48];
  }

  method PutTimes(h: MessageHeader, out: array<Byte>)
    requires out.Length >= HEADER_SIZE
    modifies out
    ensures out[16..40] == Times(h)
    ensures forall k | 0 <= k < 16 || 40 <= k < out.Length :: out[k] == old(out[k])
  {
    Put(out, 16, h.seqNo, 8);
    Put(out, 24, h.stampNs, 8);
    Put(out, 32, h.publishNs, 8);
    assert out[16..24] == Le(h.seqNo, 8);
    assert out[24..32] == Le(h.stampNs, 8);
    assert out[16..40] == out[16..24] + out[24..32] + out[32..40];
  }

  method PutSizes(h: MessageHeader, out: array<Byte>)
    requires out.Length >= HEADER_SIZE
    modifies out
    ensures out[40..48] == Sizes(h)
    ensures forall k | 0 <= k < 40 || 48 <= k < out.Length :: out[k] == old(out[k])
  {
    Put(out, 40, h.payloadSize, 4);
    Put(out, 44, h.reserved, 4);
    assert out[40..44] == Le(h.payloadSize, 4);
    assert out[40..48] == out[40..44] + out[44..48];
  }

  method PutIdentity(h: MessageHeader, out: array<Byte>)
    requires out.Length >= HEADER_SIZE
    modifies out
    ensures out[..16] == Identity(h)
    ensures forall k | 16 <= k < out.Length :: out[k] == old(out[k])
  {
    Put(out, 0, h.magic, 4);
    Put(out, 4, h.version, 2);
    Put(out, 6, h.flags, 2);
    Put(out, 8, h.schemaId, 4);
    Put(out, 12, h.schemaHash, 4);
    assert out[0..4] == Le(h.magic, 4) && out[4..6] == Le(h.version, 2);
    assert out[6..8] == Le(h.flags, 2) && out[8..12] == Le(h.schemaId, 4);
    assert out[..16] == out[0..4] + out[4..6] + out[6..8] + out[8..12] + out[12..16];
  }

  /** `init` is the caller's record: a rejected input still leaves in it the fields read so far. */
  method DecodeHeader(input: seq<Byte>, init: MessageHeader) returns (ok: bool, out: MessageHeader)
    ensures ok <==> |input| >= HEADER_SIZE && Supported(Fields(input))
    ensures ok ==> out == Fields(input)
    ensures |input| < HEADER_SIZE ==> out == init
    ensures !ok && |input| >= HEADER_SIZE ==>
              out == if U32(input, 0) != MESSAGE_MAGIC then init.(magic := U32(input, 0))
                     else init.(magic := U32(input, 0), version := U16(input, 4))
  {
    out := init;
    if |input| < HEADER_SIZE { return false, out; }
    var magic := Get4(input, 0);
    out := out.(magic := magic);
    if magic != MESSAGE_MAGIC { return false, out; }
    var version := Get2(input, 4);
    out := out.(version := version);
    if version == 0 || version > MESSAGE_VERSION { return false, out; }
    var flags := Get2(input, 6);
    var schemaId := Get4(input, 8);
    var schemaHash := Get4(input, 12);
    var seqNo := Get8(input, 16);
    var stampNs := Get8(input, 24);
    var publishNs := Get8(input, 32);
    var payloadSize := Get4(input, 40);
    var reserved := Get4(input, 44);
    out := MessageHeader(magic, version, flags, schemaId, schemaHash,
                         seqNo, stampNs, publishNs, payloadSize, reserved);
    return true, out;
  }

  method Get2(input: seq<Byte>, at: nat) returns (v: Word16)
    requires at + 2 <= |input|
    ensures v == U16(input, at)
  {
    Pow2Values();
    v := Get(input, at, 2);
  }

  method Get4(input: seq<Byte>, at: nat) returns (v: Word32)
    requires at + 4 <= |input|
    ensures v == U32(input, at)
  {
    Pow2Values();
    v := Get(input, at, 4);
  }

  method Get8(input: seq<Byte>, at: nat) returns (v: Word)
    requires at + 8 <= |input|
    ensures v == U64(input, at)
  {
    Pow2Values();
    v := Get(input, at, 8);
  }

  /** A header survives the trip exactly when this decoder supports its magic and version. */
  lemma HeaderRoundTrip(h: MessageHeader, rest: seq<Byte>)
    ensures Fields(Layout(h) + rest) == h
    ensures Supported(Fields(Layout(h) + rest)) <==> h.magic == MESSAGE_MAGIC && h.version == 1
  {
    FieldsOfLayout(h, rest);
  }

  // ---------------------------------------------------------------- FNV-1a

  const FNV_OFFSET: Word32 := 2166136261
  const FNV_PRIME: Word32 := 16777619
  const FNV_PRIME_INVERSE: Word32 := 899433627

  function FnvStep(hash: Word32, c: Byte): Word32 {
    XorWord32(hash, c);
    Xor(hash, c) * FNV_PRIME % WORD32
  }

  function Fnv(hash: Word32, s: seq<Byte>): Word32
    decreases |s|
  {
    if s == [] then hash else Fnv(FnvStep(hash, s[0]), s[1..])
  }

  /** The inverse step: multiply by the inverse of the prime modulo 2^32, then xor again. */
  function FnvUnstep(hash: Word32, c: Byte): Word32 {
    XorWord32(hash * FNV_PRIME_INVERSE % WORD32, c);
    Xor(hash * FNV_PRIME_INVERSE % WORD32, c)
  }

  function FnvUnwind(hash: Word32, s: seq<Byte>): Word32 {
    if s == [] then hash else FnvUnstep(FnvUnwind(hash, s[1..]), s[0])
  }

  lemma XorWord32(hash: Word32, c: Byte)
    ensures Xor(hash, c) < WORD32
  {
    Pow2Values();
    XorBelow(hash, c, 32);
  }

  /** The prime is invertible modulo 2^32. */
  lemma PrimeInverse(x: Word32)
    ensures x * FNV_PRIME % WORD32 * FNV_PRIME_INVERSE % WORD32 == x
    ensures x * FNV_PRIME_INVERSE % WORD32 * FNV_PRIME % WORD32 == x
  {
    var k := x * FNV_PRIME / WORD32;
    var l := x * FNV_PRIME_INVERSE / WORD32;
    var turns := FNV_PRIME * FNV_PRIME_INVERSE / WORD32;
    assert FNV_PRIME * FNV_PRIME_INVERSE == turns * WORD32 + 1;
    DivModUnique(x * FNV_PRIME % WORD32 * FNV_PRIME_INVERSE, WORD32,
                 x * turns - k * FNV_PRIME_INVERSE, x);
    DivModUnique(x * FNV_PRIME_INVERSE % WORD32 * FNV_PRIME, WORD32,
                 x * turns - l * FNV_PRIME, x);
  }

  /** For a fixed character a step is a bijection of the 32-bit states. */
  lemma StepBijective(hash: Word32, c: Byte)
    ensures FnvUnstep(FnvStep(hash, c), c) == hash
    ensures FnvStep(FnvUnstep(hash, c), c) == hash
  {
    XorWord32(hash, c);
    PrimeInverse(Xor(hash, c));
    XorCancel(hash, c);
    PrimeInverse(hash);
    XorCancel(hash * FNV_PRIME_INVERSE % WORD32, c);
  }

  /** For a fixed state a step is injective in the character. */
  lemma StepInjectiveInCharacter(hash: Word32, c: Byte, d: Byte)
    requires FnvStep(hash, c) == FnvStep(hash, d)
    ensures c == d
  {
    XorWord32(hash, c);
    XorWord32(hash, d);
    PrimeInverse(Xor(hash, c));
    PrimeInverse(Xor(hash, d));
    XorComm(hash, c);
    XorComm(hash, d);
    XorCancel(c, hash);
    XorCancel(d, hash);
  }

  /** Absorbing a whole string is a bijection of the states, so no prefix information is lost. */
  lemma {:induction false} FnvBijective(hash: Word32, s: seq<Byte>)
    ensures FnvUnwind(Fnv(hash, s), s) == hash
    ensures Fnv(FnvUnwind(hash, s), s) == hash
    decreases |s|
  {
    if s == [] {
    } else {
      FnvBijective(FnvStep(hash, s[0]), s[1..]);
      StepBijective(hash, s[0]);
      FnvBijective(hash, s[1..]);
      StepBijective(FnvUnwind(hash, s[1..]), s[0]);
    }
  }

  lemma {:induction false} FnvSplit(hash: Word32, s: seq<Byte>, t: seq<Byte>)
    ensures Fnv(hash, s + t) == Fnv(Fnv(hash, s), t)
    decreases |s|
  {
    if s == [] {
      assert s + t == t;
    } else {
      assert (s + t)[0] == s[0] && (s + t)[1..] == s[1..] + t;
      FnvSplit(FnvStep(hash, s[0]), s[1..], t);
    }
  }

  method SchemaFingerprint(signature: seq<Byte>) returns (hash: Word32)
    ensures hash == Fnv(FNV_OFFSET, signature)
  {
    hash := FNV_OFFSET;
    for i := 0 to |signature|
      invariant hash == Fnv(FNV_OFFSET, signature[..i])
    {
      assert signature[..i + 1] == signature[..i] + [signature[i]];
      FnvSplit(FNV_OFFSET, signature[..i], [signature[i]]);
      assert Fnv(hash, [signature[i]]) == Fnv(FnvStep(hash, signature[i]), []);
      XorWord32(hash, signature[i]);
      hash := Xor(hash, signature[i]);
      hash := hash * FNV_PRIME % WORD32;
    }
    assert signature[..|signature|] == signature;
  }

  /** Two known fingerprints: of the empty string and of "a". */
  lemma KnownFingerprints()
    ensures Fnv(FNV_OFFSET, []) == 0x811C9DC5
    ensures Fnv(FNV_OFFSET, [0x61]) == 0xE40C292C
  {
    StepOfA();
    FnvOne(FNV_OFFSET, 0x61);
  }

  lemma FnvOne(hash: Word32, c: Byte)
    ensures Fnv(hash, [c]) == FnvStep(hash, c)
  {
    assert [c][1..] == [];
    assert Fnv(FnvStep(hash, c), []) == FnvStep(hash, c);
  }

  lemma StepOfA()
    ensures FnvStep(FNV_OFFSET, 0x61) == 0xE40C292C
  {
    XorLowBits();
    DivModUnique(0x811C9DA4 * FNV_PRIME, WORD32, 8461672, 0xE40C292C);
  }

  lemma XorLowBits()
    ensures Xor(0x811C9DC5, 0x61) == 0x811C9DA4
  {
    XorZero(0x102393B);
    assert Xor(0x2047277, 1) == 2 * Xor(0x102393B, 0) == 0x2047276;
    assert Xor(0x408E4EE, 3) == 1 + 2 * Xor(0x2047277, 1) == 0x408E4ED;
    assert Xor(0x811C9DC, 6) == 2 * Xor(0x408E4EE, 3) == 0x811C9DA;
    assert Xor(0x102393B8, 12) == 2 * Xor(0x811C9DC, 6);
    assert Xor(0x20472771, 24) == 1 + 2 * Xor(0x102393B8, 12);
    assert Xor(0x408E4EE2, 48) == 2 * Xor(0x20472771, 24);
    assert Xor(0x811C9DC5, 97) == 2 * Xor(0x408E4EE2, 48);
  }

  /** Two signatures of equal length that differ in exactly one character never collide. */
  lemma OneCharacterApart(s: seq<Byte>, t: seq<Byte>, i: nat)
    requires i < |s| == |t|
    requires s[i] != t[i]
    requires forall j | 0 <= j < |s| && j != i :: s[j] == t[j]
    ensures Fnv(FNV_OFFSET, s) != Fnv(FNV_OFFSET, t)
  {
    var head, tail := s[..i], s[i + 1..];
    assert s == head + ([s[i]] + tail) && t == head + ([t[i]] + tail);
    FnvSplit(FNV_OFFSET, head, [s[i]] + tail);
    FnvSplit(FNV_OFFSET, head, [t[i]] + tail);
    var h := Fnv(FNV_OFFSET, head);
    assert ([s[i]] + tail)[1..] == tail && ([t[i]] + tail)[1..] == tail;
    FnvBijective(FnvStep(h, s[i]), tail);
    FnvBijective(FnvStep(h, t[i]), tail);
    if FnvStep(h, s[i]) == FnvStep(h, t[i]) {
      StepInjectiveInCharacter(h, s[i], t[i]);
    }
  }
}
