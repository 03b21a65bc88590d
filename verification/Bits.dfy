/** Fixed-width unsigned integers and the bitwise operators the sources apply to them. */
module Bits {

  const TWO64: int := 0x1_0000_0000_0000_0000
  const TWO63: int := 0x8000_0000_0000_0000
  const TWO32: int := 0x1_0000_0000

  type u64 = x: int | 0 <= x < TWO64
  type u32 = x: int | 0 <= x < TWO32
  type byte = x: int | 0 <= x < 256

  /** Unsigned 64-bit arithmetic: every result is taken modulo 2^64. */
  function Wrap(x: int): u64 {
    x % TWO64
  }

  function Pow2(n: nat): (r: nat)
    ensures r >= 1
  {
    if n == 0 then 1 else 2 * Pow2(n - 1)
  }

  function BitAnd(a: nat, b: nat): nat
    decreases a
  {
    if a == 0 then 0 else (if a % 2 == 1 && b % 2 == 1 then 1 else 0) + 2 * BitAnd(a / 2, b / 2)
  }

  function BitOr(a: nat, b: nat): nat
    decreases a + b
  {
    if a == 0 && b == 0 then 0
    else (if a % 2 == 1 || b % 2 == 1 then 1 else 0) + 2 * BitOr(a / 2, b / 2)
  }

  function BitXor(a: nat, b: nat): nat
    decreases a + b
  {
    if a == 0 && b == 0 then 0
    else (if a % 2 != b % 2 then 1 else 0) + 2 * BitXor(a / 2, b / 2)
  }

  /** Masking with 2^k - 1 keeps the remainder modulo 2^k. */
  lemma {:induction false} MaskIsMod(a: nat, k: nat)
    ensures BitAnd(a, Pow2(k) - 1) == a % Pow2(k)
    decreases k
  {
    if k == 0 {
      MaskZero(a);
    } else {
      MaskIsMod(a / 2, k - 1);
      MaskStep(a, Pow2(k - 1));
    }
  }

  lemma MaskStep(a: nat, p: nat)
    requires p > 0 && BitAnd(a / 2, p - 1) == (a / 2) % p
    ensures BitAnd(a, 2 * p - 1) == a % (2 * p)
  {
    AndByHalves(a, p);
    ModByHalves(a, p);
  }

  lemma AndByHalves(a: nat, p: nat)
    requires p > 0
    ensures BitAnd(a, 2 * p - 1) == 2 * BitAnd(a / 2, p - 1) + a % 2
  {
    var m := 2 * p - 1;
    assert m / 2 == p - 1 && m % 2 == 1;
    assert BitAnd(0, p - 1) == 0;
  }

  lemma ModByHalves(a: nat, p: nat)
    requires p > 0
    ensures a % (2 * p) == 2 * ((a / 2) % p) + a % 2
  {
    var h := a / 2;
    var q, r := h / p, h % p;
    assert h == p * q + r;
    assert a == 2 * h + a % 2;
    assert (2 * p) * q == 2 * (p * q);
    DivModUnique(a, 2 * p, q, 2 * r + a % 2);
  }

  lemma {:induction false} MaskZero(a: nat)
    ensures BitAnd(a, 0) == 0
  {
    if a > 0 { MaskZero(a / 2); }
  }

  /** OR of a value shifted past k bits with a k-bit value is their sum. */
  lemma {:induction false} OrOfDisjoint(hi: nat, lo: nat, k: nat)
    requires lo < Pow2(k)
    ensures BitOr(hi * Pow2(k), lo) == hi * Pow2(k) + lo
  {
    if k == 0 {
      OrZero(hi);
    } else {
      var p := Pow2(k - 1);
      assert hi * Pow2(k) == 2 * (hi * p);
      OrOfDisjoint(hi, lo / 2, k - 1);
    }
  }

  lemma {:induction false} OrZero(a: nat)
    ensures BitOr(a, 0) == a
  {
    if a > 0 { OrZero(a / 2); }
  }

  /** XOR with the same value twice is the identity. */
  lemma {:induction false} XorInvolutive(a: nat, b: nat)
    ensures BitXor(BitXor(a, b), b) == a
    decreases a + b
  {
    if a != 0 || b != 0 {
      XorInvolutive(a / 2, b / 2);
      XorByHalves(a, b);
      XorByHalves(BitXor(a, b), b);
    }
  }

  /** The last bit, and the rest. */
  lemma XorByHalves(a: nat, b: nat)
    ensures BitXor(a, b) / 2 == BitXor(a / 2, b / 2)
    ensures BitXor(a, b) % 2 == if a % 2 != b % 2 then 1 else 0
  {
  }

  /** Bit j, from the least significant. */
  function Bit(v: nat, j: nat): nat {
    if j == 0 then v % 2 else Bit(v / 2, j - 1)
  }

  /** Each bit of the result is the sum of the two bits without carry. */
  lemma {:induction false} XorBit(a: nat, b: nat, j: nat)
    ensures Bit(BitXor(a, b), j) == (Bit(a, j) + Bit(b, j)) % 2
    decreases j
  {
    XorByHalves(a, b);
    if j > 0 { XorBit(a / 2, b / 2, j - 1); }
  }

  lemma {:induction false} XorBound(a: nat, b: nat, k: nat)
    requires a < Pow2(k) && b < Pow2(k)
    ensures BitXor(a, b) < Pow2(k)
  {
    if k > 0 { XorBound(a / 2, b / 2, k - 1); }
  }

  /** Quotient and remainder are determined by the division equation. */
  lemma DivModUnique(x: int, d: int, q: int, r: int)
    requires d > 0 && x == d * q + r && 0 <= r < d
    ensures x / d == q && x % d == r
  {
    var n := x / d - q;
    assert d * n == r - x % d;
    if n > 0 {
      MulAtLeast(d, n);
    } else if n < 0 {
      MulAtLeast(d, -n);
    }
  }

  lemma MulAtLeast(d: int, n: int)
    requires d > 0 && n >= 1
    ensures d * n >= d
  {
    assert d * n == d * (n - 1) + d;
  }

  /** Reducing modulo a multiple of d first does not change the remainder modulo d. */
  lemma ModOfMultiple(x: int, d: int, m: int)
    requires d > 0 && m > 0
    ensures (x % (d * m)) % d == x % d
  {
    var dm := d * m;
    var q, r := x / dm, x % dm;
    assert x == dm * q + r;
    assert dm * q == d * (m * q);
    DivModUnique(x, d, m * q + r / d, r % d);
  }

  lemma {:induction false} Pow2Adds(a: nat, b: nat)
    ensures Pow2(a) * Pow2(b) == Pow2(a + b)
  {
    if a > 0 {
      Pow2Adds(a - 1, b);
      assert Pow2(a) * Pow2(b) == 2 * (Pow2(a - 1) * Pow2(b));
    } else {
      assert Pow2(0) == 1;
    }
  }

  lemma {:induction false} Pow2Monotone(a: nat, b: nat)
    requires a <= b
    ensures Pow2(a) <= Pow2(b)
  {
    if a < b { Pow2Monotone(a, b - 1); }
  }

  lemma Pow2Of8()
    ensures Pow2(8) == 256
  {
  }

  lemma Pow2Of32()
    ensures Pow2(16) == 0x1_0000 && Pow2(32) == TWO32
  {
    Pow2Of8();
    Pow2Adds(8, 8);
    Pow2Adds(16, 16);
  }

  lemma Pow2Of63()
    ensures 2 * Pow2(63) == Pow2(64)
  {
  }

  lemma Pow2Of64()
    ensures Pow2(8) == 256 && Pow2(16) == 0x1_0000 && Pow2(32) == TWO32
    ensures Pow2(63) == TWO63 && Pow2(64) == TWO64
  {
    Pow2Of8();
    Pow2Of32();
    Pow2Adds(32, 32);
    Pow2Of63();
  }

  /** Wrapping step by step is wrapping once. */
  lemma WrapStep(n: nat, d: nat)
    ensures Wrap(Wrap(n) + d) == Wrap(n + d)
  {
    var a, b := n / TWO64, (Wrap(n) + d) / TWO64;
    DivModUnique(n + d, TWO64, a + b, (Wrap(n) + d) % TWO64);
  }

  /** The powers of two up to the top bit of 64. */
  lemma UpToTopBit(n: nat)
    requires n <= 63
    ensures Pow2(n) <= TWO63 && (n < 63 ==> Pow2(n + 1) <= TWO63) && (n == 63 ==> Pow2(n) == TWO63)
  {
    Pow2Of64();
    var top: nat := 63;
    assert Pow2(top) == TWO63;
    Pow2Monotone(n, top);
    if n < 63 { Pow2Monotone(n + 1, top); }
  }

  /** A power of two up to 2^63 divides 2^64, so a 64-bit index masks like the unbounded count. */
  lemma IndexMasksLikeCount(n: nat, k: nat)
    requires k <= 63
    ensures BitAnd(Wrap(n), Pow2(k) - 1) == n % Pow2(k)
  {
    MaskIsMod(Wrap(n), k);
    Pow2Of64();
    Pow2Adds(k, 64 - k);
    ModOfMultiple(n, Pow2(k), Pow2(64 - k));
  }
}
