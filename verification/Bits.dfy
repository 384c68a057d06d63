/** Bit operations on natural numbers.  The middleware works on unsigned machine words; here a
    word is a natural number below its width, and the bitwise operators of the source are the
    recursive functions of this module. */
module Bits {

  const WORD: nat := 0x1_0000_0000_0000_0000
  const WORD32: nat := 0x1_0000_0000

  type Word = x: nat | x < WORD
  type Word32 = x: nat | x < WORD32
  type Byte = x: nat | x < 256

  function Pow2(n: nat): (r: nat)
    ensures r >= 1
  {
    if n == 0 then 1 else 2 * Pow2(n - 1)
  }

  function Or(a: nat, b: nat): nat {
    if a == 0 then b
    else (if a % 2 == 1 || b % 2 == 1 then 1 else 0) + 2 * Or(a / 2, b / 2)
  }

  function And(a: nat, b: nat): nat {
    if a == 0 then 0
    else (if a % 2 == 1 && b % 2 == 1 then 1 else 0) + 2 * And(a / 2, b / 2)
  }

  function Xor(a: nat, b: nat): nat {
    if a == 0 then b
    else (if a % 2 != b % 2 then 1 else 0) + 2 * Xor(a / 2, b / 2)
  }

  /** `v << k`, one place at a time. */
  function Shl(v: nat, k: nat): nat {
    if k == 0 then v else 2 * Shl(v, k - 1)
  }

  /** `v >> k`, one place at a time. */
  function Shr(v: nat, k: nat): nat
    decreases k
  {
    if k == 0 then v else Shr(v / 2, k - 1)
  }

  // ---------------------------------------------------------------- powers of two

  lemma {:induction false} Pow2Add(m: nat, n: nat)
    ensures Pow2(m + n) == Pow2(m) * Pow2(n)
  {
    if m == 0 {
    } else {
      Pow2Add(m - 1, n);
      assert Pow2(m + n) == 2 * (Pow2(m - 1) * Pow2(n));
    }
  }

  lemma {:induction false} Pow2Mono(m: nat, n: nat)
    requires m <= n
    ensures Pow2(m) <= Pow2(n)
    ensures m < n ==> 2 * Pow2(m) <= Pow2(n)
  {
    if m == n {
    } else {
      Pow2Mono(m, n - 1);
    }
  }

  lemma Pow2Values()
    ensures Pow2(6) == 64 && Pow2(8) == 256 && Pow2(16) == 0x1_0000
    ensures Pow2(32) == WORD32 && Pow2(63) == 0x8000_0000_0000_0000 && Pow2(64) == WORD
  {
    assert Pow2(8) == 256 by { assert Pow2(4) == 16; }
    Pow2Add(8, 8);
    Pow2Add(16, 16);
    assert Pow2(31) == 0x8000_0000;
    Pow2Add(32, 31);
    assert Pow2(64) == 2 * Pow2(63);
  }

  // ---------------------------------------------------------------- shifts

  lemma {:induction false} ShlAdd(v: nat, w: nat, k: nat)
    ensures Shl(v + w, k) == Shl(v, k) + Shl(w, k)
  {
    if k == 0 {
    } else {
      ShlAdd(v, w, k - 1);
    }
  }

  lemma {:induction false} ShlMono(v: nat, w: nat, k: nat)
    requires v <= w
    ensures Shl(v, k) <= Shl(w, k)
    ensures v < w ==> Shl(v, k) < Shl(w, k)
  {
    if k == 0 {
    } else {
      ShlMono(v, w, k - 1);
    }
  }

  lemma {:induction false} ShlOne(k: nat)
    ensures Shl(1, k) == Pow2(k) && Shl(0, k) == 0
  {
    if k == 0 {
    } else {
      ShlOne(k - 1);
    }
  }

  lemma {:induction false} ShlProduct(v: nat, k: nat)
    ensures Shl(v, k) == v * Pow2(k)
  {
    if k == 0 {
    } else {
      ShlProduct(v, k - 1);
      var p := Pow2(k - 1);
      assert v * (2 * p) == 2 * (v * p);
    }
  }

  /** The two shifts are adjoint: `q << k <= v` exactly when `q <= v >> k`. */
  lemma {:induction false} ShiftAdjoint(q: nat, v: nat, k: nat)
    ensures Shl(q, k) <= v <==> q <= Shr(v, k)
    decreases k
  {
    if k == 0 {
    } else {
      ShiftAdjoint(q, v / 2, k - 1);
    }
  }

  /** Removing a shifted amount before shifting back is subtraction afterwards. */
  lemma {:induction false} ShrSub(v: nat, q: nat, k: nat)
    requires Shl(q, k) <= v
    ensures q <= Shr(v, k) && Shr(v - Shl(q, k), k) == Shr(v, k) - q
    decreases k
  {
    if k == 0 {
    } else {
      assert (v - 2 * Shl(q, k - 1)) / 2 == v / 2 - Shl(q, k - 1);
      ShrSub(v / 2, q, k - 1);
    }
  }

  // ---------------------------------------------------------------- products and quotients

  lemma {:induction false} MulMono(a: int, b: int, w: nat)
    requires a <= b
    ensures w * a <= w * b
  {
    if w == 0 {
    } else {
      MulMono(a, b, w - 1);
      assert w * a == (w - 1) * a + a && w * b == (w - 1) * b + b;
    }
  }

  /** Splitting off the lowest bit of a remainder. */
  lemma ModSplit(a: nat, m: nat)
    requires m >= 1
    ensures a % (2 * m) == a % 2 + 2 * ((a / 2) % m)
    ensures a / (2 * m) == (a / 2) / m
  {
    var q, r := (a / 2) / m, (a / 2) % m;
    assert a == (2 * m) * q + (2 * r + a % 2) by {
      assert a / 2 == m * q + r;
      assert (2 * m) * q == 2 * (m * q);
    }
    DivModUnique(a, 2 * m, q, 2 * r + a % 2);
  }

  lemma DivModUnique(a: int, m: nat, q: int, r: nat)
    requires r < m && a == m * q + r
    ensures a / m == q && a % m == r
  {
    var d := a / m - q;
    assert a == m * (a / m) + a % m;
    assert m * d == r - a % m by { assert m * d == m * (a / m) - m * q; }
    if 1 <= d { MulMono(1, d, m); }
    if d <= -1 { MulMono(d, -1, m); }
  }

  /** A remainder modulo a multiple of `p` has the same remainder modulo `p`. */
  lemma ModOfMod(x: nat, p: nat, q: nat)
    requires p >= 1 && p * q >= 1
    ensures (x % (p * q)) % p == x % p
  {
    var n, m := x / (p * q), x % (p * q);
    var j, r := m / p, m % p;
    assert x == (p * q) * n + m && m == p * j + r;
    assert (p * q) * n == p * (q * n);
    assert p * (q * n) + p * j == p * (q * n + j);
    DivModUnique(x, p, q * n + j, r);
  }

  // ---------------------------------------------------------------- the bitwise operators

  /** Masking with 2^k - 1 is the remainder modulo 2^k. */
  lemma {:induction false} AndMask(a: nat, k: nat)
    ensures And(a, Pow2(k) - 1) == a % Pow2(k)
    decreases k
  {
    if k == 0 {
      AndZero(a);
    } else {
      ModSplit(a, Pow2(k - 1));
      AndMask(a / 2, k - 1);
      assert (Pow2(k) - 1) / 2 == Pow2(k - 1) - 1;
      assert (Pow2(k) - 1) % 2 == 1;
    }
  }

  lemma AndZero(a: nat)
    ensures And(a, 0) == 0
  {
  }

  lemma {:induction false} OrZero(a: nat)
    ensures Or(a, 0) == a
  {
    if a == 0 {
    } else {
      OrZero(a / 2);
    }
  }

  /** Bits that do not overlap: `|` is addition. */
  lemma {:induction false} OrDisjoint(a: nat, b: nat, k: nat)
    requires a < Pow2(k)
    ensures Or(a, Shl(b, k)) == a + Shl(b, k)
    decreases k
  {
    if a == 0 {
    } else {
      OrDisjoint(a / 2, b, k - 1);
    }
  }

  lemma {:induction false} OrBelow(a: nat, b: nat, n: nat)
    requires a < Pow2(n) && b < Pow2(n)
    ensures a <= Or(a, b) < Pow2(n) && b <= Or(a, b)
    decreases n
  {
    if a == 0 {
    } else {
      OrBelow(a / 2, b / 2, n - 1);
    }
  }

  /** The bits of `x` above position `k` survive, and the low part is at least `z`. */
  lemma {:induction false} OrHigh(x: nat, y: nat, z: nat, k: nat)
    requires y < Pow2(k) && z < Pow2(k)
    ensures Or(Shl(x, k) + y, z) >= Shl(x, k) + z
    decreases k
  {
    if k == 0 {
      OrZero(x);
    } else {
      var h := Shl(x, k - 1);
      assert (2 * h + y) / 2 == h + y / 2;
      OrHigh(x, y / 2, z / 2, k - 1);
    }
  }

  lemma {:induction false} XorCancel(a: nat, b: nat)
    ensures Xor(Xor(a, b), b) == a
    decreases a + b
  {
    if a == 0 {
      XorSelf(b);
    } else {
      XorCancel(a / 2, b / 2);
      var x := Xor(a, b);
      assert x / 2 == Xor(a / 2, b / 2);
      if x == 0 { assert a % 2 == b % 2; }
    }
  }

  lemma {:induction false} XorSelf(b: nat)
    ensures Xor(b, b) == 0
  {
    if b == 0 {
    } else {
      XorSelf(b / 2);
    }
  }

  lemma {:induction false} XorComm(a: nat, b: nat)
    ensures Xor(a, b) == Xor(b, a)
    decreases a + b
  {
    if a == 0 {
      XorZero(b);
    } else if b == 0 {
      XorZero(a);
    } else {
      XorComm(a / 2, b / 2);
    }
  }

  lemma {:induction false} XorZero(a: nat)
    ensures Xor(a, 0) == a
  {
    if a == 0 {
    } else {
      XorZero(a / 2);
    }
  }

  lemma {:induction false} XorBelow(a: nat, b: nat, n: nat)
    requires a < Pow2(n) && b < Pow2(n)
    ensures Xor(a, b) < Pow2(n)
    decreases n
  {
    if a == 0 {
    } else {
      XorBelow(a / 2, b / 2, n - 1);
    }
  }
}
