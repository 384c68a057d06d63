/** Little-endian encoding of unsigned integers, the layout shared by the message header and by
    the frame prefix. */
module Bytes {
  import opened Bits

  /** The `n` low bytes of `v`, least significant first. */
  function Le(v: nat, n: nat): (s: seq<Byte>)
    ensures |s| == n
  {
    if n == 0 then [] else [v % 256] + Le(v / 256, n - 1)
  }

  /** The number a little-endian byte string stands for. */
  function Val(s: seq<Byte>): nat {
    if s == [] then 0 else s[0] + 256 * Val(s[1..])
  }

  /** Shifting by a whole byte. */
  lemma {:induction false} ByteShift(v: nat, k: nat)
    ensures Shr(v, k + 8) == Shr(v / 256, k) && Shl(v, k + 8) == 256 * Shl(v, k)
    ensures Pow2(k + 8) == 256 * Pow2(k)
  {
    HalfByteShift(v, k + 4);
    HalfByteShift(v / 16, k);
    HalfByteShift(v, k);
    assert v / 16 / 16 == v / 256;
  }

  lemma {:induction false} HalfByteShift(v: nat, k: nat)
    ensures Shr(v, k + 4) == Shr(v / 16, k) && Shl(v, k + 4) == 16 * Shl(v, k)
    ensures Pow2(k + 4) == 16 * Pow2(k)
  {
    TwoPlaces(v, k + 2);
    TwoPlaces(v / 4, k);
    TwoPlaces(v, k);
    assert v / 4 / 4 == v / 16;
  }

  lemma {:induction false} TwoPlaces(v: nat, k: nat)
    ensures Shr(v, k + 2) == Shr(v / 4, k) && Shl(v, k + 2) == 4 * Shl(v, k)
    ensures Pow2(k + 2) == 4 * Pow2(k)
  {
    assert Shr(v, k + 2) == Shr(v / 2, k + 1);
    assert v / 2 / 2 == v / 4;
  }

  lemma LowByte(v: nat)
    ensures And(v, 255) == v % 256
  {
    Pow2Values();
    AndMask(v, 8);
  }

  /** Byte `i` of the encoding is what `(v >> 8 * i) & 0xFF` computes. */
  lemma {:induction false} LeAt(v: nat, n: nat, i: nat)
    requires i < n
    ensures Le(v, n)[i] == And(Shr(v, 8 * i), 255)
    decreases i
  {
    LowByte(Shr(v, 8 * i));
    if i == 0 {
    } else {
      LeAt(v / 256, n - 1, i - 1);
      ByteShift(v, 8 * (i - 1));
    }
  }

  lemma {:induction false} ValBelow(s: seq<Byte>)
    ensures Val(s) < Pow2(8 * |s|)
  {
    if s == [] {
    } else {
      ValBelow(s[1..]);
      ByteShift(0, 8 * |s[1..]|);
    }
  }

  lemma {:induction false} ValAppend(s: seq<Byte>, b: Byte)
    ensures Val(s + [b]) == Val(s) + Shl(b, 8 * |s|)
  {
    if s == [] {
      assert Val([b]) == b + 256 * Val([]);
    } else {
      assert (s + [b])[1..] == s[1..] + [b];
      ValAppend(s[1..], b);
      ByteShift(b, 8 * |s[1..]|);
    }
  }

  /** Decoding undoes encoding of a number that fits. */
  lemma {:induction false} ValLe(v: nat, n: nat)
    requires v < Pow2(8 * n)
    ensures Val(Le(v, n)) == v
    decreases n
  {
    if n == 0 {
    } else {
      ByteShift(v, 8 * (n - 1));
      ValLe(v / 256, n - 1);
      assert Le(v, n)[1..] == Le(v / 256, n - 1);
    }
  }

  lemma SliceOfSlice(s: seq<Byte>, a: nat, b: nat, i: nat, j: nat)
    requires a <= b <= |s| && i <= j <= b - a
    ensures s[a..b][i..j] == s[a + i..a + j]
  {
    var l, r := s[a..b][i..j], s[a + i..a + j];
    forall k | 0 <= k < j - i ensures l[k] == r[k] {
      assert s[a..b][i + k] == s[a + (i + k)];
    }
    assert l == r;
  }

  lemma ValLe4(v: Word32)
    ensures Val(Le(v, 4)) == v
  {
    Pow2Values();
    ValLe(v, 4);
  }

  /** Encoding undoes decoding. */
  lemma {:induction false} LeVal(s: seq<Byte>)
    ensures Le(Val(s), |s|) == s
  {
    if s == [] {
    } else {
      assert Val(s) % 256 == s[0] && Val(s) / 256 == Val(s[1..]);
      LeVal(s[1..]);
    }
  }
}
