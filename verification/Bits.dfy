/** Bitwise operators on unsigned machine words, written out on natural numbers, with the few
    laws that the hash functions and the packed packet header rely on. */
module Bits {

  /** A C `short`; every store into one is checked against its range. */
  type short = x: int | -0x8000 <= x < 0x8000

  /** One past the largest value of a 64-bit unsigned word. */
  const WORD: nat := 0x1_0000_0000_0000_0000

  function Pow2(k: nat): (r: nat)
    ensures r > 0
  {
    if k == 0 then 1 else 2 * Pow2(k - 1)
  }

  function And(x: nat, m: nat): (r: nat)
    ensures r <= m
  {
    if m == 0 then 0 else (if x % 2 == 1 && m % 2 == 1 then 1 else 0) + 2 * And(x / 2, m / 2)
  }

  function Or(x: nat, y: nat): nat
  {
    if x == 0 then y else (if x % 2 == 1 || y % 2 == 1 then 1 else 0) + 2 * Or(x / 2, y / 2)
  }

  function Xor(x: nat, y: nat): nat
  {
    if x == 0 then y else (if x % 2 != y % 2 then 1 else 0) + 2 * Xor(x / 2, y / 2)
  }

  /** The left and right shifts of C. */
  function Shl(x: nat, k: nat): nat
  {
    if k == 0 then x else 2 * Shl(x, k - 1)
  }

  function Shr(x: nat, k: nat): nat
  {
    if k == 0 then x else Shr(x / 2, k - 1)
  }

  lemma DivModUnique(x: nat, d: nat, q: nat, r: nat)
    requires r < d
    requires x == d * q + r
    ensures x / d == q && x % d == r
  {
    assert d * (x / d) + x % d == x;
    if x / d < q {
      MulMono(d, x / d + 1, q);
    } else if x / d > q {
      MulMono(d, q + 1, x / d);
    }
  }

  lemma MulMono(d: nat, a: nat, b: nat)
    requires a <= b
    ensures d * a <= d * b
  {
  }

  /** Splitting the lowest bit off a remainder and a quotient. */
  lemma LowBit(x: nat, p: nat)
    requires p > 0
    ensures x % (2 * p) == x % 2 + 2 * (x / 2 % p)
    ensures x / (2 * p) == x / 2 / p
  {
    var q, r := x / 2 / p, x / 2 % p;
    assert x / 2 == p * q + r;
    assert x == 2 * (p * q + r) + x % 2;
    assert 2 * (p * q) == 2 * p * q;
    DivModUnique(x, 2 * p, q, 2 * r + x % 2);
  }

  /** Masking with `2^k - 1` takes the remainder modulo `2^k`. */
  lemma {:induction false} AndMask(x: nat, k: nat)
    ensures And(x, Pow2(k) - 1) == x % Pow2(k)
  {
    if k > 0 {
      AndMask(x / 2, k - 1);
      MaskStep(x, Pow2(k - 1), Pow2(k));
    }
  }

  lemma MaskStep(x: nat, m: nat, n: nat)
    requires m > 0 && n == 2 * m && And(x / 2, m - 1) == x / 2 % m
    ensures And(x, n - 1) == x % n
  {
    LowBit(x, m);
    assert (n - 1) / 2 == m - 1;
  }

  /** A mask whose `k` lowest bits are clear selects from the word shifted right by `k`. */
  lemma {:induction false} AndShift(x: nat, m: nat, k: nat)
    ensures And(x, Shl(m, k)) == Shl(And(Shr(x, k), m), k)
  {
    if k > 0 {
      AndShift(x / 2, m, k - 1);
    }
  }

  lemma {:induction false} ShrShl(x: nat, low: nat, k: nat)
    requires low < Pow2(k)
    ensures Shr(Shl(x, k) + low, k) == x
    ensures (Shl(x, k) + low) % Pow2(k) == low
  {
    if k > 0 {
      var y := Shl(x, k) + low;
      assert y / 2 == Shl(x, k - 1) + low / 2 && y % 2 == low % 2;
      ShrShl(x, low / 2, k - 1);
      LowBit(y, Pow2(k - 1));
    }
  }

  lemma {:induction false} ShlAdd(x: nat, j: nat, k: nat)
    ensures Shl(Shl(x, j), k) == Shl(x, j + k)
  {
    if k > 0 {
      ShlAdd(x, j, k - 1);
    }
  }

  lemma {:induction false} ShrAdd(x: nat, j: nat, k: nat)
    ensures Shr(Shr(x, j), k) == Shr(x, j + k)
  {
    if j > 0 {
      ShrAdd(x / 2, j - 1, k);
    }
  }

  lemma {:induction false} ShrIsDiv(x: nat, k: nat)
    ensures Shr(x, k) == x / Pow2(k)
  {
    if k > 0 {
      ShrIsDiv(x / 2, k - 1);
      LowBit(x, Pow2(k - 1));
    }
  }

  lemma {:induction false} ShlIsProduct(x: nat, k: nat)
    ensures Shl(x, k) == x * Pow2(k)
  {
    if k > 0 {
      ShlIsProduct(x, k - 1);
      DoubleProduct(x, Pow2(k - 1));
    }
  }

  lemma DoubleProduct(a: nat, p: nat)
    ensures a * (2 * p) == 2 * (a * p)
  {
  }

  lemma PowByte(k: nat)
    ensures Pow2(k + 8) == 256 * Pow2(k)
  {
    assert Pow2(k + 2) == 4 * Pow2(k);
    assert Pow2(k + 4) == 4 * Pow2(k + 2);
    assert Pow2(k + 6) == 4 * Pow2(k + 4);
    assert Pow2(k + 8) == 4 * Pow2(k + 6);
  }

  lemma OrLow(x: nat, lo: nat)
    requires lo < 1
    ensures Or(x, lo) == x
    decreases x
  {
    if x > 0 {
      OrLow(x / 2, lo);
    }
  }

  /** Or-ing shifted fields happens above whatever fits below both. */
  lemma {:induction false} OrShifted(x: nat, y: nat, lo: nat, k: nat)
    requires lo < Pow2(k)
    ensures Or(Shl(x, k), Shl(y, k) + lo) == Shl(Or(x, y), k) + lo
  {
    if k > 0 {
      OrShifted(x, y, lo / 2, k - 1);
      var a, b := Shl(x, k), Shl(y, k) + lo;
      assert a / 2 == Shl(x, k - 1) && b / 2 == Shl(y, k - 1) + lo / 2 && a % 2 == 0 && b % 2 == lo % 2;
      assert a == 0 ==> Shl(x, k - 1) == 0;
    }
  }

  /** Or-ing a shifted field with something that fits below it adds the two. */
  lemma OrDisjoint(hi: nat, lo: nat, k: nat)
    requires lo < Pow2(k)
    ensures Or(Shl(hi, k), lo) == Shl(hi, k) + lo
  {
    OrShifted(hi, 0, lo, k);
    OrLow(hi, 0);
    ShlZero(k);
  }

  lemma {:induction false} ShlZero(k: nat)
    ensures Shl(0, k) == 0
  {
    if k > 0 {
      ShlZero(k - 1);
    }
  }

  lemma XorHalf(x: nat, y: nat)
    ensures Xor(x, y) % 2 == (if x % 2 != y % 2 then 1 else 0)
    ensures Xor(x, y) / 2 == Xor(x / 2, y / 2)
  {
    if x > 0 {
      var low, high := if x % 2 != y % 2 then 1 else 0, Xor(x / 2, y / 2);
      assert Xor(x, y) == low + 2 * high;
    }
  }

  /** The low bits of an exclusive or depend on the low bits of its arguments only. */
  lemma {:induction false} XorLow(x: nat, y: nat, k: nat)
    ensures Xor(x, y) % Pow2(k) == Xor(x % Pow2(k), y % Pow2(k)) % Pow2(k)
  {
    if k > 0 {
      var p, a, b := Pow2(k - 1), x % Pow2(k), y % Pow2(k);
      XorLow(x / 2, y / 2, k - 1);
      LowBit(x, p);
      LowBit(y, p);
      XorHalf(x, y);
      XorHalf(a, b);
      LowBit(Xor(x, y), p);
      LowBit(Xor(a, b), p);
      HalfOfRemainder(x, p);
      HalfOfRemainder(y, p);
    }
  }

  lemma HalfOfRemainder(x: nat, p: nat)
    requires p > 0
    ensures x % (2 * p) % 2 == x % 2 && x % (2 * p) / 2 == x / 2 % p
  {
    LowBit(x, p);
  }
}
