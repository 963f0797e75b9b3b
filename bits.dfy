/** Python's integer bit operations (`&`, `|`, `>>`, `<<`) on non-negative
    integers, with the few identities the modelled bit layouts rely on.
    Shifts and low-bit extraction are defined by repeated halving, so the
    proofs about them need no division by a variable. */
module Bits {

  function Pow2(k: nat): (r: nat)
    ensures r >= 1
  {
    if k == 0 then 1 else 2 * Pow2(k - 1)
  }

  /** `a & b` */
  function And(a: nat, b: nat): nat
  {
    if a == 0 || b == 0 then 0
    else 2 * And(a / 2, b / 2) + (if a % 2 == 1 && b % 2 == 1 then 1 else 0)
  }

  /** `a | b` */
  function Or(a: nat, b: nat): nat
    decreases a + b
  {
    if a == 0 then b
    else if b == 0 then a
    else 2 * Or(a / 2, b / 2) + (if a % 2 == 1 || b % 2 == 1 then 1 else 0)
  }

  /** `a >> k`: k halvings, rounding down. */
  function Shr(a: nat, k: nat): nat
  {
    if k == 0 then a else Shr(a / 2, k - 1)
  }

  /** `a % (1 << k)`: the low k bits of a. */
  function Low(a: nat, k: nat): nat
  {
    if k == 0 then 0 else 2 * Low(a / 2, k - 1) + a % 2
  }

  /** `a << k` */
  function Shl(a: nat, k: nat): nat
  {
    a * Pow2(k)
  }

  /** `(a >> k) & 1` */
  function Bit(a: nat, k: nat): (r: nat)
    ensures r < 2
  {
    Shr(a, k) % 2
  }

  lemma {:induction false} Pow2Add(a: nat, b: nat)
    ensures Pow2(a + b) == Pow2(a) * Pow2(b)
  {
    if a > 0 {
      Pow2Add(a - 1, b);
    }
  }

  lemma {:induction false} Pow2Monotone(a: nat, b: nat)
    requires a <= b
    ensures Pow2(a) <= Pow2(b)
  {
    if a < b {
      Pow2Monotone(a, b - 1);
    }
  }

  lemma Pow2Four()
    ensures Pow2(4) == 16
  {
  }

  lemma Pow2Sixteen()
    ensures Pow2(16) == 0x1_0000
  {
    Pow2Add(8, 8);
    assert Pow2(8) == 256;
  }

  lemma Pow2SixtyFour()
    ensures Pow2(64) == 0x1_0000_0000_0000_0000
  {
    Pow2Sixteen();
    Pow2Add(16, 16);
    Pow2Add(32, 32);
  }

  lemma MulGap(d: int, a: int, b: int)
    requires d > 0 && a - b >= 1
    ensures d * a - d * b >= d
  {
    var j := a - b - 1;
    assert d * a - d * b == d * j + d;
    assert d * j >= 0;
  }

  lemma MulMono(a: int, b: int, c: int)
    requires a <= b && c >= 0
    ensures a * c <= b * c
  {
    assert b * c - a * c == (b - a) * c;
  }

  /** Quotient and remainder are determined by the division equation. */
  lemma DivModUnique(x: int, d: int, q: int, r: int)
    requires d > 0 && 0 <= r < d && x == d * q + r
    ensures x / d == q && x % d == r
  {
    var q' := x / d;
    if q > q' {
      MulGap(d, q, q');
    } else if q < q' {
      MulGap(d, q', q);
    }
  }

  /** Shifting by i and then j is shifting by i + j. */
  lemma {:induction false} ShrAdd(a: nat, i: nat, j: nat)
    ensures Shr(Shr(a, i), j) == Shr(a, i + j)
  {
    if i > 0 {
      ShrAdd(a / 2, i - 1, j);
    }
  }

  /** `a >> k` is division by 2^k. */
  lemma {:induction false} ShrDiv(a: nat, k: nat)
    ensures Shr(a, k) == a / Pow2(k)
  {
    if k > 0 {
      ShrDiv(a / 2, k - 1);
      var p := Pow2(k - 1);
      var q, r := (a / 2) / p, (a / 2) % p;
      assert a == 2 * (a / 2) + a % 2;
      assert a == Pow2(k) * q + (2 * r + a % 2);
      DivModUnique(a, Pow2(k), q, 2 * r + a % 2);
    }
  }

  /** The low k bits are the remainder modulo 2^k. */
  lemma {:induction false} LowMod(a: nat, k: nat)
    ensures Low(a, k) == a % Pow2(k)
  {
    if k > 0 {
      LowMod(a / 2, k - 1);
      var p := Pow2(k - 1);
      var q, r := (a / 2) / p, (a / 2) % p;
      assert a == 2 * (a / 2) + a % 2;
      assert a == Pow2(k) * q + (2 * r + a % 2);
      DivModUnique(a, Pow2(k), q, 2 * r + a % 2);
    }
  }

  /** `x & ((1 << k) - 1)` is the remainder modulo 2^k. */
  lemma AndMod(x: nat, k: nat)
    ensures And(x, Pow2(k) - 1) == x % Pow2(k)
  {
    AndLow(x, k);
    LowMod(x, k);
  }

  /** The low k bits are below 2^k. */
  lemma {:induction false} LowBound(a: nat, k: nat)
    ensures Low(a, k) < Pow2(k)
  {
    if k > 0 {
      LowBound(a / 2, k - 1);
    }
  }

  /** A value below 2^k is its own low k bits. */
  lemma {:induction false} LowSmall(a: nat, k: nat)
    requires a < Pow2(k)
    ensures Low(a, k) == a
  {
    if k > 0 {
      LowSmall(a / 2, k - 1);
    }
  }

  /** The low four bits of a value: `x % 16`. */
  lemma LowFour(a: nat)
    ensures Low(a, 4) == a % 16
  {
    var a1 := a / 2;
    var a2 := a1 / 2;
    var a3 := a2 / 2;
    var a4 := a3 / 2;
    var low := 8 * (a3 % 2) + 4 * (a2 % 2) + 2 * (a1 % 2) + a % 2;
    assert Low(a3, 1) == a3 % 2;
    assert Low(a2, 2) == 2 * Low(a3, 1) + a2 % 2;
    assert Low(a1, 3) == 2 * Low(a2, 2) + a1 % 2;
    assert Low(a, 4) == low;
    assert a == 16 * a4 + low;
    DivModUnique(a, 16, a4, low);
  }

  /** Shifting out the low w bits of v + 2^w * rest leaves rest. */
  lemma {:induction false} ShrPacked(v: nat, rest: nat, w: nat)
    requires v < Pow2(w)
    ensures Shr(v + Pow2(w) * rest, w) == rest
  {
    if w > 0 {
      var p := Pow2(w - 1);
      assert Pow2(w) * rest == 2 * (p * rest);
      assert (v + Pow2(w) * rest) / 2 == v / 2 + p * rest;
      ShrPacked(v / 2, rest, w - 1);
    }
  }

  /** The low w bits of v + 2^w * rest are v. */
  lemma {:induction false} LowPacked(v: nat, rest: nat, w: nat)
    requires v < Pow2(w)
    ensures Low(v + Pow2(w) * rest, w) == v
  {
    if w > 0 {
      var p := Pow2(w - 1);
      assert Pow2(w) * rest == 2 * (p * rest);
      assert (v + Pow2(w) * rest) / 2 == v / 2 + p * rest;
      assert (v + Pow2(w) * rest) % 2 == v % 2;
      LowPacked(v / 2, rest, w - 1);
    }
  }

  /** Both operands non-zero: one step of the bitwise recursion. */
  lemma AndStep(a: nat, b: nat)
    requires a > 0 && b > 0
    ensures And(a, b) == 2 * And(a / 2, b / 2) + (if a % 2 == 1 && b % 2 == 1 then 1 else 0)
  {
  }

  /** A mask m2 == 2 * m with a clear low bit: one step of the recursion. */
  lemma AndShift(x: nat, m2: nat, m: nat)
    requires m2 == 2 * m
    ensures And(x, m2) == 2 * And(x / 2, m)
  {
    if x > 0 && m > 0 {
      AndStep(x, m2);
    }
  }

  /** An odd mask m == 2 * m' + 1: one step of the recursion. */
  lemma AndOddMask(x: nat, m: nat, m': nat)
    requires m == 2 * m' + 1
    ensures And(x, m) == 2 * And(x / 2, m') + x % 2
  {
    if x > 0 {
      AndStep(x, m);
    }
  }

  /** `x & ((1 << k) - 1)` keeps the low k bits. */
  lemma {:induction false} AndLow(x: nat, k: nat)
    ensures And(x, Pow2(k) - 1) == Low(x, k)
  {
    if k > 0 {
      AndLow(x / 2, k - 1);
      AndOddMask(x, Pow2(k) - 1, Pow2(k - 1) - 1);
    }
  }

  /** `x & (1 << k)` isolates bit k. */
  lemma {:induction false} AndSingle(x: nat, k: nat)
    ensures And(x, Pow2(k)) == Pow2(k) * Bit(x, k)
  {
    if k == 0 {
      AndOddMask(x, 1, 0);
    } else {
      var p := Pow2(k - 1);
      AndShift(x, Pow2(k), p);
      AndSingle(x / 2, k - 1);
      assert Bit(x / 2, k - 1) == Bit(x, k);
      if Bit(x, k) == 0 {
        assert Pow2(k) * Bit(x, k) == 0;
      } else {
        assert Pow2(k) * Bit(x, k) == 2 * p;
      }
    }
  }

  /** A mask with four clear low bits. */
  lemma AndShift4(x: nat, m: nat)
    ensures And(x, 16 * m) == 16 * And(x / 16, m)
  {
    var x1, x2, x3 := x / 2, x / 4, x / 8;
    AndShift(x, 16 * m, 8 * m);
    assert x1 / 2 == x2;
    AndShift(x1, 8 * m, 4 * m);
    assert x2 / 2 == x3;
    AndShift(x2, 4 * m, 2 * m);
    assert x3 / 2 == x / 16;
    AndShift(x3, 2 * m, m);
  }

  /** The low nibble of a byte: `x & 0x0F`. */
  lemma AndLowNibble(x: nat)
    ensures And(x, 0x0F) == x % 16
  {
    Pow2Four();
    AndLow(x, 4);
    LowFour(x);
  }

  /** The high nibble of a byte: `x & 0xF0`. */
  lemma AndHighNibble(x: nat)
    requires x < 256
    ensures And(x, 0xF0) == 16 * (x / 16)
  {
    AndShift4(x, 0x0F);
    AndLowNibble(x / 16);
  }

  /** `a >> 4` of a multiple of 16. */
  lemma ShrFour(h: nat)
    ensures Shr(16 * h, 4) == h
  {
    Pow2Four();
    ShrPacked(0, h, 4);
  }

  /** OR of a value whose low k bits are clear with a value below 2^k is addition. */
  lemma {:induction false} OrDisjoint(a: nat, b: nat, k: nat)
    requires Low(a, k) == 0 && b < Pow2(k)
    ensures Or(a, b) == a + b
  {
    if a == 0 || b == 0 {
    } else {
      assert k > 0;
      OrDisjoint(a / 2, b / 2, k - 1);
    }
  }

  /** `|` is commutative. */
  lemma {:induction false} OrComm(a: nat, b: nat)
    ensures Or(a, b) == Or(b, a)
    decreases a + b
  {
    if a != 0 && b != 0 {
      OrComm(a / 2, b / 2);
    }
  }

  /** Setting a clear bit k with `| (1 << k)` adds 2^k. */
  lemma {:induction false} OrClearBit(a: nat, k: nat)
    requires Bit(a, k) == 0
    ensures Or(a, Pow2(k)) == a + Pow2(k)
  {
    if k == 0 {
      if a != 0 {
        assert Or(a, 1) == 2 * Or(a / 2, 0) + 1;
      }
    } else if a != 0 {
      assert Bit(a / 2, k - 1) == Bit(a, k);
      OrClearBit(a / 2, k - 1);
      assert Or(a, Pow2(k)) == 2 * Or(a / 2, Pow2(k - 1)) + a % 2;
    }
  }
}
